/**
What the evidence checks answer, read off the documents themselves: which artifacts and fragments are
well formed, which lists aggregate, what the aggregate holds, and what the updater manifest lists.
*/
module ReleaseEvidenceAnswers {
  import opened Basics
  import opened Ordering
  import opened ReleaseEvidence

  // ---------- well-formed artifacts and fragments ----------

  /** Every character with the White_Space property. */
  const WHITE_SPACE :=
    "\t\n\U{B}\U{C}\r \U{85}\U{A0}\U{1680}\U{2000}\U{2001}\U{2002}\U{2003}\U{2004}\U{2005}\U{2006}\U{2007}"
    + "\U{2008}\U{2009}\U{200A}\U{2028}\U{2029}\U{202F}\U{205F}\U{3000}"
  const HEX_DIGITS := "0123456789abcdefABCDEF"
  const TARGETS := {"windows-x86_64", "darwin-aarch64", "darwin-x86_64", "linux-x86_64"}

  ghost predicate HasText(s: string) {
    exists c <- s :: c !in WHITE_SPACE
  }

  lemma {:induction false} SpacesAre(c: char)
    ensures IsUnicodeSpace(c) <==> c in WHITE_SPACE
  {
    var n := c as int;
    if 0x2000 <= n <= 0x200A {
      assert c == WHITE_SPACE[n - 0x2000 + 9];
    }
    if 0x09 <= n <= 0x0D {
      assert c == WHITE_SPACE[n - 0x09];
    }
  }

  lemma BlankExactlyWhen(s: string)
    ensures Blank(s) <==> !HasText(s)
  {
    forall c ensures IsUnicodeSpace(c) <==> c in WHITE_SPACE {
      SpacesAre(c);
    }
    if !Blank(s) {
      var i :| 0 <= i < |s| && !IsUnicodeSpace(s[i]);
      assert s[i] in s;
    }
  }

  ghost predicate IsDigest(s: string) {
    |s| == 64 && forall c <- s :: c in HEX_DIGITS
  }

  lemma HexDigitsAre(c: char)
    ensures IsHexDigit(c) <==> c in HEX_DIGITS
  {
    if '0' <= c <= '9' {
      assert c == HEX_DIGITS[c as int - '0' as int];
    }
    if 'a' <= c <= 'f' {
      assert c == HEX_DIGITS[10 + c as int - 'a' as int];
    }
    if 'A' <= c <= 'F' {
      assert c == HEX_DIGITS[16 + c as int - 'A' as int];
    }
  }

  lemma DigestExactlyWhen(s: string)
    ensures (|s| == 64 && forall i | 0 <= i < |s| :: IsHexDigit(s[i])) <==> IsDigest(s)
  {
    forall c ensures IsHexDigit(c) <==> c in HEX_DIGITS {
      HexDigitsAre(c);
    }
    assert forall i | 0 <= i < |s| :: s[i] in s;
  }

  /** Named, for a target, in a file, with a SHA-256 in hexadecimal digits and no empty signature. */
  ghost predicate WellFormed(a: Artifact) {
    && HasText(a.name) && HasText(a.target) && HasText(a.file) && IsDigest(a.sha256)
    && (a.signature == None || exists s :: a.signature == Some(s) && s != "")
  }

  ghost predicate NoneTwice(artifacts: seq<Artifact>) {
    forall i, j | 0 <= i < |artifacts| && 0 <= j < |artifacts| ::
      artifacts[i].target == artifacts[j].target && artifacts[i].name == artifacts[j].name ==> i == j
  }

  lemma ArtifactExactlyWhen(a: Artifact)
    ensures ArtifactOk(a) <==> WellFormed(a)
  {
    BlankExactlyWhen(a.name);
    BlankExactlyWhen(a.target);
    BlankExactlyWhen(a.file);
    DigestExactlyWhen(a.sha256);
    if a.signature.Some? {
      assert a.signature == Some(a.signature.value);
    }
  }

  lemma ArtifactsExactlyWhen(artifacts: seq<Artifact>)
    ensures ArtifactsOk(artifacts) <==> (forall a <- artifacts :: WellFormed(a)) && NoneTwice(artifacts)
  {
    forall a <- artifacts ensures ArtifactOk(a) <==> WellFormed(a) {
      ArtifactExactlyWhen(a);
    }
    if DistinctKeys(artifacts) {
      forall i, j | 0 <= i < |artifacts| && 0 <= j < |artifacts| && i != j
        ensures artifacts[i].target != artifacts[j].target || artifacts[i].name != artifacts[j].name
      {
        assert KeyOf(artifacts[if i < j then i else j]) != KeyOf(artifacts[if i < j then j else i]);
      }
    }
  }

  /** All four parts of the subject are there. */
  ghost predicate IsComplete(s: Subject) {
    HasText(s.repository) && HasText(s.commitSha) && HasText(s.tag) && HasText(s.version)
  }

  /** Something is asserted, every id is one of the known and none is used twice. */
  ghost predicate AssertsKnown(known: KnownIds, assertions: seq<Assertion>) {
    && |assertions| > 0 && (forall a <- assertions :: HasText(a.id) && known(a.id))
    && (forall i, j | 0 <= i < |assertions| && 0 <= j < |assertions| ::
          assertions[i].id == assertions[j].id ==> i == j)
  }

  /** No error, and every assertion passed. */
  ghost predicate IsClean(f: Fragment) {
    |f.errors| == 0 && forall a <- f.assertions :: a.status == Passed
  }

  /** What a fragment must be: of this schema, complete, and with the status that its own findings call for. */
  ghost predicate IsFragment(known: KnownIds, f: Fragment) {
    && f.schema == 1 && IsComplete(f.subject) && HasText(f.platform) && HasText(f.scenario)
    && AssertsKnown(known, f.assertions) && f.status == (if IsClean(f) then Passed else Failed)
    && (forall a <- f.artifacts :: WellFormed(a) && a.target == f.platform) && NoneTwice(f.artifacts)
  }

  lemma SubjectExactlyWhen(s: Subject)
    ensures SubjectOk(s) <==> IsComplete(s)
  {
    BlankExactlyWhen(s.repository);
    BlankExactlyWhen(s.commitSha);
    BlankExactlyWhen(s.tag);
    BlankExactlyWhen(s.version);
  }

  lemma AssertionsExactlyWhen(known: KnownIds, assertions: seq<Assertion>)
    ensures assertions != [] && DistinctIds(assertions) && (forall a <- assertions :: !Blank(a.id) && known(a.id))
       <==> AssertsKnown(known, assertions)
  {
    forall a <- assertions ensures Blank(a.id) <==> !HasText(a.id) {
      BlankExactlyWhen(a.id);
    }
    if DistinctIds(assertions) {
      forall i, j | 0 <= i < |assertions| && 0 <= j < |assertions| && i != j
        ensures assertions[i].id != assertions[j].id
      {
        assert assertions[if i < j then i else j].id != assertions[if i < j then j else i].id;
      }
    }
  }

  lemma CleanExactlyWhen(f: Fragment)
    ensures HasFailure(f) <==> !IsClean(f)
  {
  }

  lemma FragmentExactlyWhen(known: KnownIds, f: Fragment)
    ensures FragmentOk(known, f) <==> IsFragment(known, f)
  {
    SubjectExactlyWhen(f.subject);
    BlankExactlyWhen(f.platform);
    BlankExactlyWhen(f.scenario);
    AssertionsExactlyWhen(known, f.assertions);
    CleanExactlyWhen(f);
    ArtifactsExactlyWhen(f.artifacts);
  }

  // ---------- what aggregates, and to what ----------

  ghost predicate Covers(fragments: seq<Fragment>, target: string) {
    exists f <- fragments :: f.platform == target
  }

  /** Well-formed fragments of this subject, one for each of the four targets and none else. */
  ghost predicate OneForEachTarget(known: KnownIds, subject: Subject, fragments: seq<Fragment>) {
    && (forall f <- fragments :: IsFragment(known, f) && f.subject == subject && f.platform in TARGETS)
    && (forall target <- TARGETS :: Covers(fragments, target)) && |fragments| == 4
  }

  lemma TargetsAre(target: string)
    ensures target in REQUIRED_RELEASE_TARGETS <==> target in TARGETS
    ensures |REQUIRED_RELEASE_TARGETS| == 4
  {
    assert REQUIRED_RELEASE_TARGETS[0] in REQUIRED_RELEASE_TARGETS;
    assert REQUIRED_RELEASE_TARGETS[1] in REQUIRED_RELEASE_TARGETS;
    assert REQUIRED_RELEASE_TARGETS[2] in REQUIRED_RELEASE_TARGETS;
    assert REQUIRED_RELEASE_TARGETS[3] in REQUIRED_RELEASE_TARGETS;
  }

  lemma MembersExactlyWhen(known: KnownIds, subject: Subject, fragments: seq<Fragment>)
    ensures (forall f <- fragments :: Belongs(known, subject, f))
       <==> forall f <- fragments :: IsFragment(known, f) && f.subject == subject && f.platform in TARGETS
  {
    forall f <- fragments
      ensures Belongs(known, subject, f)
         <==> IsFragment(known, f) && f.subject == subject && f.platform in TARGETS
    {
      FragmentExactlyWhen(known, f);
      TargetsAre(f.platform);
    }
  }

  /** Four fragments for four targets are one for each. */
  lemma FourForFour(fragments: seq<Fragment>, targets: seq<string>)
    requires |targets| == 4 && forall i | 0 <= i < 4 :: Covers(fragments, targets[i])
    requires CountOf(fragments, targets[0]) + CountOf(fragments, targets[1])
             + CountOf(fragments, targets[2]) + CountOf(fragments, targets[3]) == 4
    ensures forall target <- targets :: CountOf(fragments, target) == 1
  {
    CoveredIsCounted(fragments, targets[0]);
    CoveredIsCounted(fragments, targets[1]);
    CoveredIsCounted(fragments, targets[2]);
    CoveredIsCounted(fragments, targets[3]);
  }

  lemma CoveredIsCounted(fragments: seq<Fragment>, target: string)
    ensures Covers(fragments, target) <==> CountOf(fragments, target) > 0
  {
    CountedIn(fragments, target);
  }

  lemma OneEachIsAcceptable(known: KnownIds, subject: Subject, fragments: seq<Fragment>)
    requires OneForEachTarget(known, subject, fragments)
    ensures Acceptable(known, subject, fragments)
  {
    MembersExactlyWhen(known, subject, fragments);
    forall i | 0 <= i < 4 ensures Covers(fragments, REQUIRED_RELEASE_TARGETS[i]) {
      assert REQUIRED_RELEASE_TARGETS[i] in REQUIRED_RELEASE_TARGETS;
      TargetsAre(REQUIRED_RELEASE_TARGETS[i]);
    }
    assert forall f <- fragments :: Belongs(known, subject, f);
    CountsSum(fragments);
    FourForFour(fragments, REQUIRED_RELEASE_TARGETS);
  }

  lemma AcceptableIsOneEach(known: KnownIds, subject: Subject, fragments: seq<Fragment>)
    requires Acceptable(known, subject, fragments)
    ensures OneForEachTarget(known, subject, fragments)
  {
    assert forall f <- fragments :: Belongs(known, subject, f);
    MembersExactlyWhen(known, subject, fragments);
    CoversTargets(known, subject, fragments);
    forall target <- TARGETS ensures Covers(fragments, target) {
      TargetsAre(target);
    }
  }

  /** What aggregates, in the fragments' own terms. */
  lemma AggregatesExactlyWhen(known: KnownIds, subject: Subject, fragments: seq<Fragment>)
    ensures Aggregated(known, subject, fragments).Ok? <==> OneForEachTarget(known, subject, fragments)
  {
    if OneForEachTarget(known, subject, fragments) {
      OneEachIsAcceptable(known, subject, fragments);
    }
    if Acceptable(known, subject, fragments) {
      AcceptableIsOneEach(known, subject, fragments);
    }
  }

  /** The first two of what is ordered by target and then by name are in this order. */
  ghost predicate Before(target: string, name: string, otherTarget: string, otherName: string) {
    if target == otherTarget then name != otherName && AtMost(name, otherName) else AtMost(target, otherTarget)
  }

  lemma BeforeExactlyWhen(a: Artifact, b: Artifact)
    ensures ArtifactOrder()(a, b) < 0.0 <==> Before(a.target, a.name, b.target, b.name)
  {
    StringsAre(a.target, b.target);
    StringsAre(a.name, b.name);
    StringsAntisymmetric(a.target, b.target);
    StringsAntisymmetric(a.name, b.name);
  }

  lemma FragmentBefore(a: Fragment, b: Fragment)
    requires a.platform != b.platform && FragmentOrder()(a, b) <= 0.0
    ensures AtMost(a.platform, b.platform)
  {
    StringsAre(a.platform, b.platform);
    StringsAntisymmetric(a.platform, b.platform);
  }

  /** The aggregate of an acceptable list, field by field. */
  ghost predicate AggregateShows(subject: Subject, fragments: seq<Fragment>, e: Evidence) {
    && e.schema == 1 && e.subject == subject
    && e.status == (if forall f <- fragments :: IsClean(f) then Passed else Failed)
    && multiset(e.fragments) == multiset(fragments)
    && (forall i, j :: 0 <= i < j < |e.fragments| ==>
          e.fragments[i].platform != e.fragments[j].platform
              && AtMost(e.fragments[i].platform, e.fragments[j].platform))
    && (forall a :: a in e.artifacts <==> exists f <- fragments :: a in f.artifacts)
    && (forall i, j :: 0 <= i < j < |e.artifacts| ==>
          Before(e.artifacts[i].target, e.artifacts[i].name, e.artifacts[j].target, e.artifacts[j].name))
  }

  lemma ArtifactsShown(known: KnownIds, subject: Subject, fragments: seq<Fragment>)
    requires Aggregated(known, subject, fragments).Ok?
    ensures var e := Aggregated(known, subject, fragments).value;
            && (forall a :: a in e.artifacts <==> exists f <- fragments :: a in f.artifacts)
            && (forall i, j :: 0 <= i < j < |e.artifacts| ==>
                  Before(e.artifacts[i].target, e.artifacts[i].name, e.artifacts[j].target, e.artifacts[j].name))
  {
    var e := Aggregated(known, subject, fragments).value;
    var sorted := Sort(FragmentOrder(), fragments);
    SortedIsAcceptable(known, subject, fragments);
    SortKeepsAll(FragmentOrder(), fragments);
    SameMembers(fragments, sorted);
    SortKeepsAll(ArtifactOrder(), AllArtifacts(sorted));
    forall a ensures a in e.artifacts <==> exists f <- fragments :: a in f.artifacts {
      assert a in e.artifacts <==> a in multiset(e.artifacts);
      assert a in AllArtifacts(sorted) <==> a in multiset(AllArtifacts(sorted));
      ArtifactsOfPrefix(known, sorted, a);
    }
    ArtifactsOfAcceptable(known, subject, sorted);
    forall i, j | 0 <= i < j < |e.artifacts|
      ensures Before(e.artifacts[i].target, e.artifacts[i].name, e.artifacts[j].target, e.artifacts[j].name)
    {
      BeforeExactlyWhen(e.artifacts[i], e.artifacts[j]);
    }
  }

  lemma TargetsDiffer(known: KnownIds, subject: Subject, fragments: seq<Fragment>, i: nat, j: nat)
    requires Acceptable(known, subject, fragments) && i < j < |fragments|
    ensures fragments[i].platform != fragments[j].platform
  {
    assert fragments[i] in fragments;
    if fragments[i].platform == fragments[j].platform {
      CountedTwice(fragments, i, j);
    }
  }

  lemma FragmentsShown(known: KnownIds, subject: Subject, fragments: seq<Fragment>)
    requires Aggregated(known, subject, fragments).Ok?
    ensures var e := Aggregated(known, subject, fragments).value;
            forall i, j :: 0 <= i < j < |e.fragments| ==>
              e.fragments[i].platform != e.fragments[j].platform
              && AtMost(e.fragments[i].platform, e.fragments[j].platform)
  {
    var sorted := Sort(FragmentOrder(), fragments);
    SortedIsAcceptable(known, subject, fragments);
    OrdersAreWeak();
    SortSorted(FragmentOrder(), fragments);
    forall i, j | 0 <= i < j < |sorted|
      ensures sorted[i].platform != sorted[j].platform && AtMost(sorted[i].platform, sorted[j].platform)
    {
      TargetsDiffer(known, subject, sorted, i, j);
      FragmentBefore(sorted[i], sorted[j]);
    }
  }

  lemma AggregateAnswers(known: KnownIds, subject: Subject, fragments: seq<Fragment>)
    requires Aggregated(known, subject, fragments).Ok?
    ensures AggregateShows(subject, fragments, Aggregated(known, subject, fragments).value)
  {
    SuccessMeans(known, subject, fragments);
    FragmentsShown(known, subject, fragments);
    ArtifactsShown(known, subject, fragments);
    forall f <- fragments ensures HasFailure(f) <==> !IsClean(f) {
      CleanExactlyWhen(f);
    }
  }

  // ---------- what is valid evidence ----------

  lemma SameMembersOnce(xs: seq<Artifact>, ys: seq<Artifact>)
    requires DistinctKeys(xs) && DistinctKeys(ys) && forall a :: a in xs <==> a in ys
    ensures multiset(xs) == multiset(ys)
  {
    forall a ensures multiset(xs)[a] == multiset(ys)[a] {
      if a in xs {
        var i :| 0 <= i < |xs| && xs[i] == a;
        var j :| 0 <= j < |ys| && ys[j] == a;
        OnceInMultiset(xs, i);
        OnceInMultiset(ys, j);
      }
    }
  }

  lemma BeforeMeansSorted(artifacts: seq<Artifact>)
    requires forall i, j :: 0 <= i < j < |artifacts| ==>
               Before(artifacts[i].target, artifacts[i].name, artifacts[j].target, artifacts[j].name)
    ensures Sorted(ArtifactOrder(), artifacts) && DistinctKeys(artifacts)
            && NoTies(ArtifactOrder(), multiset(artifacts))
  {
    ArtifactOrderIsWeak();
    forall i, j | 0 <= i < j < |artifacts|
      ensures ArtifactOrder()(artifacts[i], artifacts[j]) < 0.0 && KeyOf(artifacts[i]) != KeyOf(artifacts[j])
    {
      BeforeExactlyWhen(artifacts[i], artifacts[j]);
    }
    KeysTieOnce(artifacts);
  }

  lemma KeysTieOnce(artifacts: seq<Artifact>)
    requires DistinctKeys(artifacts)
    ensures NoTies(ArtifactOrder(), multiset(artifacts))
  {
    ArtifactOrderIsWeak();
    forall a, b | a in multiset(artifacts) && b in multiset(artifacts) && ArtifactOrder()(a, b) == 0.0 ensures a == b {
      var i :| 0 <= i < |artifacts| && artifacts[i] == a;
      var j :| 0 <= j < |artifacts| && artifacts[j] == b;
      assert KeyOf(artifacts[i]) == KeyOf(artifacts[j]);
    }
  }

  lemma ArtifactsAreShownOnce(xs: seq<Artifact>, ys: seq<Artifact>)
    requires forall a :: a in xs <==> a in ys
    requires forall i, j :: 0 <= i < j < |xs| ==> Before(xs[i].target, xs[i].name, xs[j].target, xs[j].name)
    requires forall i, j :: 0 <= i < j < |ys| ==> Before(ys[i].target, ys[i].name, ys[j].target, ys[j].name)
    ensures xs == ys
  {
    BeforeMeansSorted(xs);
    BeforeMeansSorted(ys);
    SameMembersOnce(xs, ys);
    ArtifactOrderIsWeak();
    SortedIsUnique(ArtifactOrder(), xs, ys);
  }

  lemma PlatformsMeanSorted(fragments: seq<Fragment>)
    requires forall i, j :: 0 <= i < j < |fragments| ==>
               fragments[i].platform != fragments[j].platform && AtMost(fragments[i].platform, fragments[j].platform)
    ensures Sorted(FragmentOrder(), fragments)
  {
    forall i, j | 0 <= i < j < |fragments| ensures FragmentOrder()(fragments[i], fragments[j]) <= 0.0 {
      StringsAre(fragments[i].platform, fragments[j].platform);
      StringsAntisymmetric(fragments[i].platform, fragments[j].platform);
    }
  }

  /** What the aggregate shows leaves nothing open: two documents that both show it are one. */
  lemma ShownOnce(known: KnownIds, subject: Subject, fragments: seq<Fragment>, e: Evidence, d: Evidence)
    requires Acceptable(known, subject, fragments)
    requires AggregateShows(subject, fragments, e) && AggregateShows(subject, fragments, d)
    ensures e == d
  {
    ArtifactsAreShownOnce(e.artifacts, d.artifacts);
    PlatformsMeanSorted(e.fragments);
    PlatformsMeanSorted(d.fragments);
    AcceptableHasNoTies(known, subject, fragments);
    OrdersAreWeak();
    SortedIsUnique(FragmentOrder(), e.fragments, d.fragments);
  }

  /** Valid evidence is what shows its own fragments, which are one for each target, and nothing else. */
  lemma EvidenceExactlyWhen(known: KnownIds, e: Evidence)
    ensures EvidenceOk(known, e)
       <==> OneForEachTarget(known, e.subject, e.fragments) && AggregateShows(e.subject, e.fragments, e)
  {
    AggregatesExactlyWhen(known, e.subject, e.fragments);
    if Aggregated(known, e.subject, e.fragments).Ok? {
      AggregateAnswers(known, e.subject, e.fragments);
      if AggregateShows(e.subject, e.fragments, e) {
        ShownOnce(known, e.subject, e.fragments, e, Aggregated(known, e.subject, e.fragments).value);
      }
    }
  }

  // ---------- the updater manifest ----------

  /** A signed file that is no signature file itself. */
  ghost predicate IsSignedFile(a: Artifact) {
    a.signature != None && !(exists stem :: a.file == stem + ".sig")
  }

  lemma SignedFileExactlyWhen(a: Artifact)
    ensures IsPayload(a) <==> IsSignedFile(a)
  {
    if EndsWith(a.file, ".sig") {
      assert a.file == a.file[..|a.file| - 4] + ".sig";
    }
    if stem :| a.file == stem + ".sig" {
      assert a.file[|a.file| - 4..] == ".sig";
    }
  }

  /** The entry under a name is this artifact's signature and file. */
  predicate Offers(platforms: map<string, Payload>, name: string, a: Artifact) {
    name in platforms && Some(platforms[name].signature) == a.signature && platforms[name].file == a.file
  }

  /**
  Each signed file is offered under its target and the one for Windows under its second name too;
  no other name is listed.
  */
  ghost predicate ManifestShows(artifacts: seq<Artifact>, platforms: map<string, Payload>) {
    && (forall a <- artifacts :: IsSignedFile(a) ==> Offers(platforms, a.target, a))
    && (forall a <- artifacts :: IsSignedFile(a) && a.target == "windows-x86_64" ==>
          Offers(platforms, "windows-x86_64-nsis", a))
    && (forall t <- platforms :: exists a <- artifacts ::
          IsSignedFile(a) && (t == a.target || (t == "windows-x86_64-nsis" && a.target == "windows-x86_64")))
  }

  ghost predicate OneSignedFileEach(artifacts: seq<Artifact>) {
    forall i, j | 0 <= i < |artifacts| && 0 <= j < |artifacts| ::
      IsSignedFile(artifacts[i]) && IsSignedFile(artifacts[j]) && artifacts[i].target == artifacts[j].target ==> i == j
  }

  lemma ManifestAnswers(artifacts: seq<Artifact>, platforms: map<string, Payload>)
    requires IsManifest(artifacts, platforms)
    ensures ManifestShows(artifacts, platforms)
  {
    forall a <- artifacts ensures IsPayload(a) <==> IsSignedFile(a) {
      SignedFileExactlyWhen(a);
    }
    forall t <- platforms
      ensures exists a <- artifacts ::
                IsSignedFile(a) && (t == a.target || (t == "windows-x86_64-nsis" && a.target == "windows-x86_64"))
    {
      var a :| a in artifacts && IsPayload(a) && (a.target == t || (a.target == WINDOWS && t == WINDOWS_ALIAS));
    }
  }

  lemma OneEachExactlyWhen(artifacts: seq<Artifact>)
    ensures OnePayloadEach(artifacts) <==> OneSignedFileEach(artifacts)
    ensures (exists a <- artifacts :: IsPayload(a)) <==> exists a <- artifacts :: IsSignedFile(a)
  {
    forall a <- artifacts ensures IsPayload(a) <==> IsSignedFile(a) {
      SignedFileExactlyWhen(a);
    }
    if OnePayloadEach(artifacts) {
      forall i, j | 0 <= i < |artifacts| && 0 <= j < |artifacts| && i != j
                    && IsSignedFile(artifacts[i]) && IsSignedFile(artifacts[j])
        ensures artifacts[i].target != artifacts[j].target
      {
        var a, b := if i < j then i else j, if i < j then j else i;
        assert IsPayload(artifacts[a]) && IsPayload(artifacts[b]);
      }
    }
  }
}
