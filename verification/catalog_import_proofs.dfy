/** What the import machine keeps, whichever of its channels comes first. */
module CatalogImportProofs {
  import opened Basics
  import opened CatalogImport

  // ---------- only the current job is heard ----------

  /** The event speaks of a job that is not the one under way. */
  predicate Foreign(s: State, e: Event) {
    match e
    case TrackChanged(source, job, _, _, _, _) =>
      !Runs(s) || s.run.value.source != source || s.run.value.job != job
    case CompletionReported(source, job, p) =>
      !Runs(s) || s.run.value.source != source || s.run.value.job != job || p.source != source
    case Settle(k, outcome) =>
      k in s.calls
      && (match s.calls[k]
          case StartCall(job) => Silent(s, Some(job), outcome)
          case ContinueCall(expected) => Silent(s, expected, outcome)
          case CancelRecoveredCall(job) => Silent(s, Some(job), outcome)
          case _ => false)
    case _ => false
  }

  predicate Silent(s: State, job: Option<JobId>, outcome: Outcome) {
    !Runs(s) || Some(s.run.value.job) != job || (outcome.ProgressIs? && outcome.progress.source != s.run.value.source)
  }

  /** An event, a reply or a failure of another job or source changes nothing. */
  lemma ForeignChangesNothing(s: State, e: Event)
    requires Possible(s, e) && Foreign(s, e)
    ensures Step(s, e) == if e.Settle? then s.(calls := s.calls - {e.call}) else s
  {
  }

  // ---------- a finished job stays finished ----------

  /**
  What every step keeps of the jobs: a finished run is recorded, and a cancellation was
  asked for of a job under way.
  */
  ghost predicate JobsRecorded(s: State) {
    && (s.run.Some? ==> s.run.value.job in s.used)
    && (s.run.Some? && s.run.value.phase == Finished ==> s.run.value.job in s.finished)
    && s.finished <= s.used
    && (forall k <- s.calls :: s.calls[k].CancelCall? ==>
          s.calls[k].captured.phase == Running && s.calls[k].captured.job in s.used)
  }

  /** The job under way has not finished before. */
  ghost predicate JobsOk(s: State) {
    JobsRecorded(s) && (Runs(s) ==> s.run.value.job !in s.finished)
  }

  lemma RecordsAreKept(s: State, e: Event)
    requires JobsRecorded(s) && Possible(s, e)
    ensures JobsRecorded(Step(s, e)) && s.finished <= Step(s, e).finished
  {
    if e.Settle? {
      SettlingRecords(s, e);
    }
  }

  lemma SettlingRecords(s: State, e: Event)
    requires JobsRecorded(s) && Possible(s, e) && e.Settle?
    ensures JobsRecorded(Step(s, e)) && s.finished <= Step(s, e).finished
  {
    var rest := s.(calls := s.calls - {e.call});
    assert JobsRecorded(rest);
    match s.calls[e.call] {
      case StartCall(job) => EndingRecords(rest, e.outcome, Some(job));
      case ContinueCall(expected) => EndingRecords(rest, e.outcome, expected);
      case CancelRecoveredCall(job) => EndingRecords(rest, e.outcome, Some(job));
      case _ =>
    }
  }

  lemma EndingRecords(s: State, outcome: Outcome, job: Option<JobId>)
    requires JobsRecorded(s)
    ensures JobsRecorded(FailImport(s, job)) && s.finished <= FailImport(s, job).finished
    ensures outcome.ProgressIs? ==> var t := ApplyProgress(s, outcome.progress, job);
                                    JobsRecorded(t) && s.finished <= t.finished
  {
  }

  /**
  The two ways a finished job can run again: its cancellation is rejected after it ended, or a status
  asked for before it ended still calls it unfinished after it was dismissed.
  */
  predicate Revives(s: State, e: Event) {
    && e.Settle? && e.call in s.calls
    && (|| (s.calls[e.call].CancelCall? && e.outcome.Rejected?
            && s.run.Some? && s.run.value.job == s.calls[e.call].captured.job && s.run.value.phase == Finished)
        || (s.calls[e.call].StatusCall? && e.outcome.StatusIs? && e.outcome.snapshot.Some?
            && e.outcome.snapshot.value.phase != JobCompleted
            && s.run.None? && e.outcome.snapshot.value.job in s.finished))
  }

  /** A finished job runs again after a step exactly when the step is one of those two. */
  lemma RevivedExactlyWhen(s: State, e: Event)
    requires JobsOk(s) && Possible(s, e)
    ensures (Runs(Step(s, e)) && Step(s, e).run.value.job in s.finished) <==> Revives(s, e)
    ensures JobsOk(Step(s, e)) <==> !Revives(s, e)
    ensures s.finished <= Step(s, e).finished
  {
    RecordsAreKept(s, e);
    if e.Settle? {
      SettlingRevives(s, e);
    }
  }

  lemma SettlingRevives(s: State, e: Event)
    requires JobsOk(s) && Possible(s, e) && e.Settle?
    ensures (Runs(Step(s, e)) && Step(s, e).run.value.job in s.finished) <==> Revives(s, e)
    ensures JobsOk(Step(s, e)) <==> !Revives(s, e)
  {
    SettlingRecords(s, e);
  }

  ghost predicate CalmRun(s: State, es: seq<Event>, t: State)
    decreases |es|
  {
    if es == [] then s == t
    else Possible(s, es[0]) && !Revives(s, es[0]) && CalmRun(Step(s, es[0]), es[1..], t)
  }

  /** Without such a step a job goes from running to finished once, and never back. */
  lemma {:induction false} FinishedStaysFinished(s: State, es: seq<Event>, t: State, job: JobId)
    requires JobsOk(s) && CalmRun(s, es, t)
    ensures JobsOk(t)
    ensures job in s.finished ==> job in t.finished && !(Runs(t) && t.run.value.job == job)
    decreases |es|
  {
    if es != [] {
      RevivedExactlyWhen(s, es[0]);
      FinishedStaysFinished(Step(s, es[0]), es[1..], t, job);
    }
  }

  lemma InitialOk()
    ensures JobsOk(INITIAL)
  {
  }

  /** So over every run from the empty store: a job that has finished is never under way again. */
  lemma JobsFinishOnce(es: seq<Event>, s: State, more: seq<Event>, t: State, job: JobId)
    requires CalmRun(INITIAL, es, s) && CalmRun(s, more, t) && job in s.finished
    ensures job in t.finished && !(Runs(t) && t.run.value.job == job)
    ensures !(Runs(s) && s.run.value.job == job)
  {
    InitialOk();
    FinishedStaysFinished(INITIAL, es, s, job);
    FinishedStaysFinished(s, more, t, job);
  }

  /** The promise needs its condition: a cancellation rejected too late makes a finished job run for ever. */
  lemma LateRejectionRevives(job: JobId, song: string)
    ensures var done := Progress("a", Completed, [song], [], None);
            var s1 := Step(INITIAL, ImportTracks(["x"], false, "a", job));
            var s2 := Step(s1, CancelImport);
            var s3 := Step(s2, CompletionReported("a", job, done));
            var s4 := Step(s3, Settle(1, Rejected));
            && s3.run.value.phase == Finished && Runs(s4) && s4.run.value.job == job && s4.active == []
  {
    var done := Progress("a", Completed, [song], [], None);
    var s1 := Step(INITIAL, ImportTracks(["x"], false, "a", job));
    assert s1.calls[0] == StartCall(job);
    var s2 := Step(s1, CancelImport);
    assert s2.calls[1].CancelCall?;
    var s3 := Step(s2, CompletionReported("a", job, done));
    assert s3.calls == s2.calls;
  }

  /** A status was asked for, then a job began, was reported done, and was dismissed. */
  function DismissedJob(job: JobId, song: string): State {
    var s1 := Step(INITIAL, Recover);
    var s2 := Step(s1, ImportTracks(["x"], false, "a", job));
    var s3 := Step(s2, CompletionReported("a", job, Progress("a", Completed, [song], [], None)));
    Step(s3, Dismiss)
  }

  lemma DismissedJobIsDone(job: JobId, song: string)
    ensures var s := DismissedJob(job, song);
            job in s.finished && s.run.None? && 0 in s.calls && s.calls[0] == StatusCall
  {
    var s1 := Step(INITIAL, Recover);
    assert s1.calls[0] == StatusCall;
    var s2 := Step(s1, ImportTracks(["x"], false, "a", job));
    assert s2.calls[0] == StatusCall && Runs(s2);
    var s3 := Step(s2, CompletionReported("a", job, Progress("a", Completed, [song], [], None)));
    assert s3.calls == s2.calls && s3.run.value.phase == Finished;
  }

  /** An old status reply does too: asked for before the job began, answered after it was done and dismissed. */
  lemma LateStatusRevives(job: JobId, song: string)
    ensures var s := DismissedJob(job, song);
            var late := Settle(0, StatusIs(Some(Snapshot("a", job, JobRunning, 0, 1, [("x", Downloading)]))));
            && job in s.finished && s.run.None?
            && Possible(s, late) && Runs(Step(s, late)) && Step(s, late).run.value.job == job
  {
    DismissedJobIsDone(job, song);
  }

  // ---------- a track of the running job that was at its end ----------

  /** A late event of the running job that takes the track back. */
  predicate TakesBack(s: State, e: Event, id: QueueId) {
    && e.TrackChanged? && Runs(s) && s.run.value.source == e.source && s.run.value.job == e.job
    && QueueId(e.source, e.remote) == id && !Terminal(e.state)
  }

  /**
  While a job runs a track that is at its end leaves it exactly when an event of the job gives that track a
  state under way: the store takes any state an event brings.
  */
  lemma TrackTakenBackExactlyWhen(s: State, e: Event, id: QueueId)
    requires Runs(s) && Possible(s, e) && IsTerminal(s.tracks, id)
    ensures !IsTerminal(Step(s, e).tracks, id) <==> TakesBack(s, e, id)
  {
    var run := s.run.value;
    match e {
      case Settle(k, outcome) =>
        FailAllTerminal(s.tracks, run.source, s.active);
        if outcome.ProgressIs? {
          MarkTerminal(s.tracks, run.source, s.active, outcome.progress.failed);
          FollowKeeps(Mark(s.tracks, run.source, s.active, outcome.progress.failed), s.links);
        }
      case CompletionReported(_, _, p) =>
        MarkTerminal(s.tracks, run.source, s.active, p.failed);
        FollowKeeps(Mark(s.tracks, run.source, s.active, p.failed), s.links);
      case _ =>
    }
  }

  /** Such a run: a track is reported imported and then, late, downloading. */
  lemma ImportedTrackTakenBack(job: JobId, song: string)
    ensures var s1 := Step(INITIAL, ImportTracks(["x"], false, "a", job));
            var s2 := Step(s1, TrackChanged("a", job, "x", Imported(song), 1, 1));
            var s3 := Step(s2, TrackChanged("a", job, "x", Downloading, 0, 1));
            && s2.run.value.imported == 1 && IsTerminal(s2.tracks, QueueId("a", "x"))
            && s3.run.value.imported == 0 && !IsTerminal(s3.tracks, QueueId("a", "x"))
  {
    var s1 := Step(INITIAL, ImportTracks(["x"], false, "a", job));
    var s2 := Step(s1, TrackChanged("a", job, "x", Imported(song), 1, 1));
    assert ["x"][..0] == [] && s1.active == s2.active == ["x"];
    assert CountImported(s2.tracks, "a", ["x"]) == 1;
    assert CountImported(s2.tracks[QueueId("a", "x") := Downloading], "a", ["x"]) == 0;
  }

  // ---------- the ending step ----------

  predicate Ends(s: State, t: State) {
    Runs(s) && t.run.Some? && t.run.value.job == s.run.value.job && t.run.value.phase == Finished
  }

  lemma {:induction false} MarkTerminal(tracks: Tracks, source: Source, ids: seq<Remote>, failed: seq<Failure>)
    ensures var m := Mark(tracks, source, ids, failed);
            && (forall remote <- ids :: IsTerminal(m, QueueId(source, remote)))
            && (forall id :: IsTerminal(tracks, id) ==> id in m && m[id] == tracks[id])
    decreases |ids|
  {
    if ids != [] {
      MarkTerminal(tracks, source, ids[..|ids| - 1], failed);
      var m := Mark(tracks, source, ids, failed);
      forall remote <- ids ensures IsTerminal(m, QueueId(source, remote)) {
        assert remote in ids[..|ids| - 1] || remote == ids[|ids| - 1];
      }
    }
  }

  /** The first entry for a track in a report's list of failures. */
  predicate FirstEntry(failed: seq<Failure>, remote: Remote, i: nat) {
    && i < |failed| && failed[i].remote == remote && (forall j | 0 <= j < i :: failed[j].remote != remote)
  }

  /**
  What a report says of a track that was under way: with an entry it is skipped for its refusal or, without one,
  failed for its reason; with no entry it is imported.
  */
  ghost predicate ReportSays(failed: seq<Failure>, remote: Remote, state: TrackState) {
    && (forall i: nat :: FirstEntry(failed, remote, i) ==>
          match failed[i].refusal
          case Some(refusal) => state == Skipped(refusal)
          case None => state == Failed(failed[i].reason))
    && ((forall f <- failed :: f.remote != remote) ==> state == Imported(""))
  }

  lemma {:induction false} ReportedIsSaid(failed: seq<Failure>, remote: Remote)
    ensures ReportSays(failed, remote, Reported(failed, remote))
    decreases |failed|
  {
    if failed != [] && failed[0].remote != remote {
      ReportedIsSaid(failed[1..], remote);
      forall i: nat | FirstEntry(failed, remote, i) ensures i > 0 && FirstEntry(failed[1..], remote, i - 1) {
      }
    }
  }

  /** A track that was still under way takes the state of the report; every other state is left alone. */
  lemma {:induction false} MarkExact(tracks: Tracks, source: Source, ids: seq<Remote>, failed: seq<Failure>,
                                     id: QueueId)
    ensures var m := Mark(tracks, source, ids, failed);
            if id.source == source && id.remote in ids && !IsTerminal(tracks, id)
            then id in m && ReportSays(failed, id.remote, m[id])
            else (id in m <==> id in tracks) && (id in m ==> m[id] == tracks[id])
    decreases |ids|
  {
    ReportedIsSaid(failed, id.remote);
    if ids != [] {
      MarkExact(tracks, source, ids[..|ids| - 1], failed, id);
      assert ids == ids[..|ids| - 1] + [ids[|ids| - 1]];
    }
  }

  lemma {:induction false} FailAllTerminal(tracks: Tracks, source: Source, ids: seq<Remote>)
    ensures var m := FailAll(tracks, source, ids);
            && (forall remote <- ids :: IsTerminal(m, QueueId(source, remote)))
            && (forall id :: IsTerminal(tracks, id) ==> id in m && m[id] == tracks[id])
    decreases |ids|
  {
    if ids != [] {
      FailAllTerminal(tracks, source, ids[..|ids| - 1]);
      var m := FailAll(tracks, source, ids);
      forall remote <- ids ensures IsTerminal(m, QueueId(source, remote)) {
        assert remote in ids[..|ids| - 1] || remote == ids[|ids| - 1];
      }
    }
  }

  /** Once every id is at its end, each counts either as imported or as skipped. */
  lemma {:induction false} CountsAddUp(tracks: Tracks, source: Source, ids: seq<Remote>)
    requires forall remote <- ids :: IsTerminal(tracks, QueueId(source, remote))
    ensures CountImported(tracks, source, ids) + CountSkipped(tracks, source, ids) == |ids|
    decreases |ids|
  {
    if ids != [] {
      CountsAddUp(tracks, source, ids[..|ids| - 1]);
    }
  }

  /** Links only ever turn a state into an imported one. */
  lemma {:induction false} FollowKeeps(tracks: Tracks, links: seq<Link>)
    ensures var f := Follow(tracks, links);
            && (forall id :: IsTerminal(tracks, id) ==> IsTerminal(f, id))
            && (forall id :: IsImported(tracks, id) ==> IsImported(f, id))
    decreases |links|
  {
    if links != [] {
      FollowKeeps(tracks, links[..|links| - 1]);
    }
  }

  lemma ReportSettlesAll(s: State, p: Progress, job: Option<JobId>)
    requires Ends(s, ApplyProgress(s, p, job))
    ensures var t := ApplyProgress(s, p, job);
            && (forall remote <- s.active :: IsTerminal(t.tracks, QueueId(s.run.value.source, remote)))
            && Concluded(t) && t.run.value.completed == |p.imported| + |p.failed|
  {
    MarkTerminal(s.tracks, s.run.value.source, s.active, p.failed);
    FollowKeeps(Mark(s.tracks, s.run.value.source, s.active, p.failed), s.links);
  }

  lemma FailureSettlesAll(s: State, job: Option<JobId>)
    requires Ends(s, FailImport(s, job))
    ensures var t := FailImport(s, job);
            && (forall remote <- s.active :: IsTerminal(t.tracks, QueueId(s.run.value.source, remote)))
            && Concluded(t) && t.run.value.completed == |s.active|
  {
    FailAllTerminal(s.tracks, s.run.value.source, s.active);
    CountsAddUp(FailAll(s.tracks, s.run.value.source, s.active), s.run.value.source, s.active);
  }

  /** A finished run's counters agree and nothing of the job is left pending. */
  predicate Concluded(t: State) {
    && t.run.Some? && t.run.value.phase == Finished && !t.run.value.cancelling
    && t.run.value.imported + t.run.value.skipped == t.run.value.completed
    && t.active == [] && t.conflict == None
  }

  /** Whatever ends a job, its tracks are all at their end and its counters agree. */
  lemma EndingSettlesAll(s: State, e: Event)
    requires JobsRecorded(s) && Possible(s, e) && Ends(s, Step(s, e))
    ensures forall remote <- s.active :: IsTerminal(Step(s, e).tracks, QueueId(s.run.value.source, remote))
    ensures Concluded(Step(s, e))
    ensures e.Settle? && e.outcome.Rejected? ==> Step(s, e).run.value.completed == |s.active|
  {
    if e.Settle? {
      var rest := s.(calls := s.calls - {e.call});
      match s.calls[e.call] {
        case StartCall(job) => SettlingEnds(rest, e.outcome, Some(job));
        case ContinueCall(expected) => SettlingEnds(rest, e.outcome, expected);
        case CancelRecoveredCall(job) => SettlingEnds(rest, e.outcome, Some(job));
        case _ => assert false;
      }
    } else if e.CompletionReported? {
      ReportSettlesAll(s, e.progress, Some(e.job));
    }
  }

  lemma SettlingEnds(s: State, outcome: Outcome, job: Option<JobId>)
    ensures outcome.ProgressIs? && Ends(s, ApplyProgress(s, outcome.progress, job)) ==>
              var t := ApplyProgress(s, outcome.progress, job);
              Concluded(t) && forall remote <- s.active :: IsTerminal(t.tracks, QueueId(s.run.value.source, remote))
    ensures Ends(s, FailImport(s, job)) ==>
              var t := FailImport(s, job);
              && Concluded(t) && t.run.value.completed == |s.active|
              && (forall remote <- s.active :: IsTerminal(t.tracks, QueueId(s.run.value.source, remote)))
  {
    if outcome.ProgressIs? && Ends(s, ApplyProgress(s, outcome.progress, job)) {
      ReportSettlesAll(s, outcome.progress, job);
    }
    if Ends(s, FailImport(s, job)) {
      FailureSettlesAll(s, job);
    }
  }

  // ---------- links from candidates to originals ----------

  predicate UniqueCandidates(links: seq<Link>) {
    forall i, j | 0 <= i < j < |links| :: links[i].candidate != links[j].candidate
  }

  /** No link stands for a track that an earlier link offers as its candidate. */
  predicate NoBackLink(links: seq<Link>) {
    forall i, j | 0 <= i < j < |links| :: links[i].candidate != links[j].original
  }

  /** What the end of a job owes the links. */
  predicate LinksSettled(before: seq<Link>, after: Tracks, kept: seq<Link>) {
    && (forall l <- kept :: !IsTerminal(after, l.candidate))
    && (forall l <- before :: !IsTerminal(after, l.candidate) ==> l in kept)
    && (forall l <- before :: IsImported(after, l.candidate) ==> IsImported(after, l.original))
  }

  lemma {:induction false} KeptAreLinks(tracks: Tracks, links: seq<Link>)
    ensures forall l <- Kept(tracks, links) :: l in links
    decreases |links|
  {
    if links != [] {
      KeptAreLinks(tracks, links[..|links| - 1]);
      assert links == links[..|links| - 1] + [links[|links| - 1]];
    }
  }

  lemma NoBackLinkPrefix(links: seq<Link>)
    requires links != [] && NoBackLink(links)
    ensures var n := |links| - 1;
            && NoBackLink(links[..n])
            && (forall l <- links[..n] :: l.candidate != links[n].original)
  {
  }

  lemma {:induction false} ForwardLinksSettle(tracks: Tracks, links: seq<Link>)
    requires NoBackLink(links)
    ensures LinksSettled(links, Follow(tracks, links), Kept(tracks, links))
    decreases |links|
  {
    if links != [] {
      var n := |links| - 1;
      var rest := links[..n];
      var last := links[n];
      NoBackLinkPrefix(links);
      ForwardLinksSettle(tracks, rest);
      KeptAreLinks(tracks, rest);
      var before := Follow(tracks, rest);
      var after := Follow(tracks, links);
      forall l <- Kept(tracks, links) ensures !IsTerminal(after, l.candidate) {
        if l in Kept(tracks, rest) {
          assert l in rest && !IsTerminal(before, l.candidate);
        } else {
          assert l == last;
        }
      }
      forall l <- links | !IsTerminal(after, l.candidate) ensures l in Kept(tracks, links) {
        if l in rest {
          assert !IsTerminal(before, l.candidate);
        } else {
          assert l == last;
        }
      }
      forall l <- links | IsImported(after, l.candidate) ensures IsImported(after, l.original) {
        if l in rest {
          assert IsImported(before, l.candidate);
        } else {
          assert l == last;
        }
      }
    }
  }

  /** With a back link there are track states after which the end of the job leaves a link behind. */
  lemma BackLinkFails(links: seq<Link>, i: nat, j: nat) returns (tracks: Tracks)
    requires i < j < |links| && links[i].candidate == links[j].original
    requires UniqueCandidates(links)
    ensures !LinksSettled(links, Follow(tracks, links), Kept(tracks, links))
  {
    tracks := map[links[j].candidate := Imported("")];
    BackLinkVisit(links, i, j, tracks, |links|);
    assert links[..|links|] == links;
  }

  /** How such a run goes: the earlier link is kept, and then its candidate becomes imported. */
  lemma {:induction false} BackLinkVisit(links: seq<Link>, i: nat, j: nat, tracks: Tracks, n: nat)
    requires i < j < |links| && n <= |links|
    requires links[i].candidate == links[j].original
    requires UniqueCandidates(links)
    requires tracks == map[links[j].candidate := Imported("")]
    ensures var f := Follow(tracks, links[..n]);
            && IsImported(f, links[j].candidate)
            && (n <= j ==> forall id :: IsTerminal(f, id) ==> id == links[j].candidate)
            && (n > i ==> links[i] in Kept(tracks, links[..n]))
            && (n > j ==> IsImported(f, links[i].candidate))
    decreases n
  {
    if n > 0 {
      BackLinkVisit(links, i, j, tracks, n - 1);
      assert links[..n][..n - 1] == links[..n - 1];
      assert links[..n][n - 1] == links[n - 1];
      if n - 1 < j {
        assert links[n - 1].candidate != links[j].candidate;
        assert !IsTerminal(Follow(tracks, links[..n - 1]), links[n - 1].candidate);
      }
      if n - 1 == i {
        assert !IsTerminal(Follow(tracks, links[..n]), links[i].candidate);
      }
    }
  }

  /**
  A run that ends so: B is to stand for A, which was to stand for X. The job imports B, and with it A, but the
  link from A to X had been passed by then and stays, with X not imported.
  */
  lemma BackLinkRun(job: JobId, song: string)
    ensures var a := QueueId("s", "a"); var b := QueueId("s", "b"); var x := QueueId("r", "x");
            var s1 := Step(INITIAL, LinkCandidate(Link(a, x)));
            var s2 := Step(s1, ImportMatch(Link(b, a), job));
            var s3 := Step(s2, CompletionReported("s", job, Progress("s", Completed, [song], [], None)));
            && s3.run.value.phase == Finished && s3.links == [Link(a, x)]
            && IsImported(s3.tracks, a) && !IsImported(s3.tracks, x)
  {
    var a, b, x := QueueId("s", "a"), QueueId("s", "b"), QueueId("r", "x");
    assert "a"[0] != "b"[0] && "r"[0] != "s"[0];
    var s1 := Step(INITIAL, LinkCandidate(Link(a, x)));
    LinkedInTurn(Link(a, x), Link(b, a));
    assert s1.links == [Link(a, x)];
    var s2 := Step(s1, ImportMatch(Link(b, a), job));
    assert s2.links == [Link(a, x), Link(b, a)] && s2.active == ["b"] && ["b"][..0] == [];
    assert s2.tracks == map[b := Queued];
    OneMarked("s", "b");
    PassedBy(a, b, x);
  }

  lemma LinkedInTurn(first: Link, second: Link)
    requires first.candidate != second.candidate
    ensures SetLink([], first) == [first] && SetLink([first], second) == [first, second]
  {
    assert [first][1..] == [];
    assert SetLink([first], second) == [first] + SetLink([first][1..], second);
  }

  lemma OneMarked(source: Source, remote: Remote)
    ensures Mark(map[QueueId(source, remote) := Queued], source, [remote], [])
         == map[QueueId(source, remote) := Imported("")]
  {
    assert [remote][..0] == [];
    assert Mark(map[QueueId(source, remote) := Queued], source, [remote][..0], [])
        == map[QueueId(source, remote) := Queued];
  }

  lemma PassedBy(a: QueueId, b: QueueId, x: QueueId)
    requires a != b && b != x && a != x
    ensures var before := map[b := Imported("")]; var links := [Link(a, x), Link(b, a)];
            Follow(before, links) == before[a := Imported("")] && Kept(before, links) == [Link(a, x)]
  {
    var before: Tracks := map[b := Imported("")];
    var links := [Link(a, x), Link(b, a)];
    assert links[..1] == [Link(a, x)] && links[..1][..0] == [];
    assert Follow(before, links[..1][..0]) == before && Kept(before, links[..1][..0]) == [];
    assert Follow(before, links[..1]) == before;
    assert Kept(before, links[..1]) == [] + [Link(a, x)];
    assert IsTerminal(Follow(before, links), b);
  }

  /**
  Right after a completion report no link has a candidate at its end and every original whose candidate
  was imported is imported, whatever states the tracks were in, exactly when no link points back at the
  candidate of a link made before it.
  */
  lemma LinksSettleExactlyWhen(links: seq<Link>)
    requires UniqueCandidates(links)
    ensures (forall tracks: Tracks :: LinksSettled(links, Follow(tracks, links), Kept(tracks, links)))
       <==> NoBackLink(links)
  {
    if NoBackLink(links) {
      forall tracks: Tracks ensures LinksSettled(links, Follow(tracks, links), Kept(tracks, links)) {
        ForwardLinksSettle(tracks, links);
      }
    } else {
      var i, j :| 0 <= i < j < |links| && links[i].candidate == links[j].original;
      var tracks := BackLinkFails(links, i, j);
    }
  }

  /** A finished job leaves the links settled if none of them points back. */
  lemma CompletionSettlesLinks(s: State, e: Event)
    requires JobsRecorded(s) && Possible(s, e) && Ends(s, Step(s, e)) && NoBackLink(s.links)
    requires !(e.Settle? && e.outcome.Rejected?)
    ensures LinksSettled(s.links, Step(s, e).tracks, Step(s, e).links)
  {
    var failed := if e.Settle? then e.outcome.progress.failed else e.progress.failed;
    ForwardLinksSettle(Mark(s.tracks, s.run.value.source, s.active, failed), s.links);
  }

  // ---------- links are kept one per candidate ----------

  lemma {:induction false} SetLinkUnique(links: seq<Link>, link: Link)
    requires UniqueCandidates(links)
    ensures UniqueCandidates(SetLink(links, link))
    ensures forall l :: l in SetLink(links, link) <==> l == link || (l in links && l.candidate != link.candidate)
    decreases |links|
  {
    if links != [] && links[0].candidate != link.candidate {
      assert UniqueCandidates(links[1..]);
      SetLinkUnique(links[1..], link);
      var rest := SetLink(links[1..], link);
      assert SetLink(links, link) == [links[0]] + rest;
      forall l <- rest ensures l.candidate != links[0].candidate {
      }
    }
  }

  lemma {:induction false} KeptUnique(tracks: Tracks, links: seq<Link>)
    requires UniqueCandidates(links)
    ensures UniqueCandidates(Kept(tracks, links))
    decreases |links|
  {
    if links != [] {
      var n := |links| - 1;
      assert UniqueCandidates(links[..n]);
      KeptUnique(tracks, links[..n]);
      KeptAreLinks(tracks, links[..n]);
      forall l <- Kept(tracks, links[..n]) ensures l.candidate != links[n].candidate {
        assert l in links[..n];
      }
    }
  }

  lemma LinksStayUnique(s: State, e: Event)
    requires UniqueCandidates(s.links) && Possible(s, e)
    ensures UniqueCandidates(Step(s, e).links)
  {
    forall tracks: Tracks ensures UniqueCandidates(Kept(tracks, s.links)) {
      KeptUnique(tracks, s.links);
    }
    forall link: Link ensures UniqueCandidates(SetLink(s.links, link)) {
      SetLinkUnique(s.links, link);
    }
  }

  // ---------- what a confirmation can rely on ----------

  /** A track that is already queued or under way when everything fails counts as skipped, not as imported. */
  lemma {:induction false} FailedCountNothing(tracks: Tracks, source: Source, ids: seq<Remote>, counted: seq<Remote>)
    requires forall remote <- counted :: remote in ids && !IsTerminal(tracks, QueueId(source, remote))
    ensures CountImported(FailAll(tracks, source, ids), source, counted) == 0
    decreases |counted|
  {
    if counted != [] {
      FailAllExact(tracks, source, ids, QueueId(source, counted[|counted| - 1]));
      FailedCountNothing(tracks, source, ids, counted[..|counted| - 1]);
    }
  }

  /** A track that was still under way has failed; every other state is left alone. */
  lemma {:induction false} FailAllExact(tracks: Tracks, source: Source, ids: seq<Remote>, id: QueueId)
    ensures var m := FailAll(tracks, source, ids);
            if id.source == source && id.remote in ids && !IsTerminal(tracks, id)
            then id in m && m[id] == Failed("import_failed")
            else (id in m <==> id in tracks) && (id in m ==> m[id] == tracks[id])
    decreases |ids|
  {
    if ids != [] {
      FailAllExact(tracks, source, ids[..|ids| - 1], id);
      assert ids == ids[..|ids| - 1] + [ids[|ids| - 1]];
    }
  }

  lemma {:induction false} QueuedAreOpen(tracks: Tracks, source: Source, ids: seq<Remote>)
    ensures forall remote <- ids :: !IsTerminal(QueueAll(tracks, source, ids), QueueId(source, remote))
    decreases |ids|
  {
    if ids != [] {
      var n := |ids| - 1;
      QueuedAreOpen(tracks, source, ids[..n]);
      forall remote <- ids ensures !IsTerminal(QueueAll(tracks, source, ids), QueueId(source, remote)) {
        assert remote == ids[n] || remote in ids[..n];
      }
    }
  }

  /**
  A job whose start is rejected outright counts all its tracks as skipped but lists no failure, so its
  counter and its failures do not add up to the ids it was sent.
  */
  lemma RejectedStartListsNoFailure(s: State, ids: seq<Remote>, source: Source, job: JobId)
    requires !Runs(s) && ids != [] && job !in s.used
    ensures var begun := Step(s, ImportTracks(ids, false, source, job));
            && s.nextId in begun.calls && begun.calls[s.nextId] == StartCall(job)
            && (var t := Step(begun, Settle(s.nextId, Rejected));
                && t.run.Some? && t.run.value.phase == Finished && t.failures == []
                && t.run.value.imported == 0 && t.run.value.skipped == |ids|)
  {
    var queued := QueueAll(s.tracks, source, ids);
    QueuedAreOpen(s.tracks, source, ids);
    FailedCountNothing(queued, source, ids, ids);
    FailAllTerminal(queued, source, ids);
    CountsAddUp(FailAll(queued, source, ids), source, ids);
  }
}
