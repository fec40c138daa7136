/**
The import half of the store as an object: the actions, the two event handlers, and the place where the backend's
replies arrive. Each keeps the records of jobs and links in order, and says what it means for the job.
*/
module CatalogImportObject {
  import opened Basics
  import opened CatalogImport
  import opened CatalogImportAnswers
  import opened CatalogImportProofs

  class ImportStore {
    var tracks: Tracks
    var active: seq<Remote>
    var failures: seq<Failure>
    var conflict: Option<string>
    var run: Option<ImportRun>
    /** Candidate to original, in insertion order. */
    var links: seq<Link>
    var calls: map<nat, Call>
    var nextId: nat
    /** History: the job ids ever used, and those that reached their end. */
    var used: set<JobId>
    var finished: set<JobId>

    function Now(): State
      reads this
    {
      State(tracks, active, failures, conflict, run, links, calls, nextId, used, finished)
    }

    /** A finished run is on record, cancellations were asked for of running jobs, and no candidate is linked twice. */
    ghost predicate Valid()
      reads this
    {
      JobsRecorded(Now()) && UniqueCandidates(links)
    }

    /** The job under way, if there is one, has not finished before. */
    ghost predicate Fresh()
      reads this
    {
      JobsOk(Now())
    }

    /** Every track the job was after is at its end and its counters agree. */
    ghost predicate Ended(source: Source, ids: seq<Remote>)
      reads this
    {
      Concluded(Now()) && forall remote <- ids :: IsTerminal(tracks, QueueId(source, remote))
    }

    constructor ()
      ensures Valid() && Fresh() && Now() == INITIAL
    {
      tracks, active, failures, conflict, run, links := map[], [], [], None, None, [];
      calls, nextId, used, finished := map[], 0, {}, {};
    }

    method Send(call: Call)
      modifies this`calls, this`nextId
      ensures Now() == AddCall(old(Now()), call)
    {
      calls := calls[nextId := call];
      nextId := nextId + 1;
    }

    /** The two counters over the active ids. */
    static method Count(tracks: Tracks, source: Source, ids: seq<Remote>) returns (imported: nat, skipped: nat)
      ensures imported == CountImported(tracks, source, ids)
      ensures skipped == CountSkipped(tracks, source, ids)
    {
      imported, skipped := 0, 0;
      for i := 0 to |ids|
        invariant imported == CountImported(tracks, source, ids[..i])
        invariant skipped == CountSkipped(tracks, source, ids[..i])
      {
        assert ids[..i + 1][..i] == ids[..i];
        var id := QueueId(source, ids[i]);
        if IsImported(tracks, id) {
          imported := imported + 1;
        }
        if IsTerminal(tracks, id) && !IsImported(tracks, id) {
          skipped := skipped + 1;
        }
      }
      assert ids[..|ids|] == ids;
    }

    static method MarkTracks(before: Tracks, source: Source, ids: seq<Remote>, failed: seq<Failure>)
      returns (states: Tracks)
      ensures states == Mark(before, source, ids, failed)
    {
      states := before;
      for i := 0 to |ids|
        invariant states == Mark(before, source, ids[..i], failed)
      {
        assert ids[..i + 1][..i] == ids[..i];
        var id := QueueId(source, ids[i]);
        if !IsTerminal(states, id) {
          states := states[id := Reported(failed, ids[i])];
        }
      }
      assert ids[..|ids|] == ids;
    }

    /** Walks the links once, handing states over and dropping the links that are done with. */
    static method FollowLinks(before: Tracks, links: seq<Link>) returns (states: Tracks, kept: seq<Link>)
      ensures states == Follow(before, links) && kept == Kept(before, links)
    {
      states, kept := before, [];
      for i := 0 to |links|
        invariant states == Follow(before, links[..i]) && kept == Kept(before, links[..i])
      {
        assert links[..i + 1][..i] == links[..i];
        var link := links[i];
        if IsImported(states, link.candidate) {
          states := states[link.original := states[link.candidate]];
        }
        if !IsTerminal(states, link.candidate) {
          kept := kept + [link];
        }
      }
      assert links[..|links|] == links;
    }

    static method FailTracks(before: Tracks, source: Source, ids: seq<Remote>) returns (states: Tracks)
      ensures states == FailAll(before, source, ids)
    {
      states := before;
      for i := 0 to |ids|
        invariant states == FailAll(before, source, ids[..i])
      {
        assert ids[..i + 1][..i] == ids[..i];
        var id := QueueId(source, ids[i]);
        if !IsTerminal(states, id) {
          states := states[id := Failed("import_failed")];
        }
      }
      assert ids[..|ids|] == ids;
    }

    method TakeProgress(p: Progress, job: Option<JobId>)
      modifies this
      ensures Now() == ApplyProgress(old(Now()), p, job)
    {
      if run.None? || run.value.phase != Running || job != Some(run.value.job) || p.source != run.value.source {
        return;
      }
      if p.status == AwaitingDecision {
        conflict, failures := p.conflict, p.failed;
        return;
      }
      var states := MarkTracks(tracks, run.value.source, active, p.failed);
      states, links := FollowLinks(states, links);
      EndRun(p, states);
    }

    method EndRun(p: Progress, states: Tracks)
      requires run.Some?
      modifies this
      ensures Now() == EndedRun(old(Now()), p, states)
    {
      tracks, conflict, failures, active := states, None, p.failed, [];
      finished := finished + {run.value.job};
      run := Some(run.value.(imported := |p.imported|, skipped := |p.failed|,
                             completed := |p.imported| + |p.failed|, phase := Finished, cancelling := false));
    }

    method TakeFailure(job: Option<JobId>)
      modifies this
      ensures Now() == FailImport(old(Now()), job)
    {
      if run.None? || run.value.phase != Running || job != Some(run.value.job) {
        return;
      }
      var states := FailTracks(tracks, run.value.source, active);
      var imported, skipped := Count(states, run.value.source, active);
      FailRun(states, imported, skipped);
    }

    method FailRun(states: Tracks, imported: nat, skipped: nat)
      requires run.Some?
      modifies this`tracks, this`active, this`conflict, this`finished, this`run
      ensures tracks == states && active == [] && conflict == None && finished == old(finished) + {old(run).value.job}
      ensures run == Some(old(run).value.(imported := imported, skipped := skipped, completed := imported + skipped,
                                          phase := Finished, cancelling := false))
    {
      tracks, active, conflict := states, [], None;
      finished := finished + {run.value.job};
      run := Some(run.value.(imported := imported, skipped := skipped, completed := imported + skipped,
                             phase := Finished, cancelling := false));
    }

    method Start(ids: seq<Remote>, wholePlaylist: bool, source: Source, job: JobId)
      modifies this
      ensures Now() == StartImport(old(Now()), ids, wholePlaylist, source, job)
    {
      if (run.Some? && run.value.phase == Running) || (ids == [] && !wholePlaylist) {
        return;
      }
      var states := tracks;
      for i := 0 to |ids|
        invariant states == QueueAll(tracks, source, ids[..i])
        invariant Now() == old(Now())
      {
        assert ids[..i + 1][..i] == ids[..i];
        states := states[QueueId(source, ids[i]) := Queued];
      }
      assert ids[..|ids|] == ids;
      tracks, active, failures, used := states, ids, [], used + {job};
      run := Some(ImportRun(source, job, Running, |ids|, 0, 0, 0, false));
      Send(StartCall(job));
    }

    /** Refused while a job runs; otherwise the tracks are queued under the new job, which is asked for. */
    method StartJob(ids: seq<Remote>, wholePlaylist: bool, source: Source, job: JobId)
      requires Valid() && job !in used
      modifies this
      ensures Valid() && (old(Fresh()) ==> Fresh())
      ensures Now() == Step(old(Now()), ImportTracks(ids, wholePlaylist, source, job))
      ensures if old(Runs(Now())) || (ids == [] && !wholePlaylist) then Now() == old(Now()) else Begun(job, source, ids)
      ensures OthersStay(old(tracks), tracks, source, ids) && links == old(links) && conflict == old(conflict)
    {
      QueueAnswers(tracks, source, ids);
      EventKeeps(Now(), ImportTracks(ids, wholePlaylist, source, job));
      QueuedStates(tracks, source, ids);
      Start(ids, wholePlaylist, source, job);
    }

    /** The job runs and was asked for last, with all its tracks queued and no failure noted. */
    ghost predicate Begun(job: JobId, source: Source, ids: seq<Remote>)
      reads this
    {
      && run == Some(ImportRun(source, job, Running, |ids|, 0, 0, 0, false)) && active == ids && failures == []
      && (forall remote <- ids :: QueueId(source, remote) in tracks && tracks[QueueId(source, remote)] == Queued)
      && nextId > 0 && nextId - 1 in calls && calls[nextId - 1] == StartCall(job)
    }

    method LinkTo(link: Link)
      modifies this`links
      ensures Now() == old(Now()).(links := SetLink(old(links), link))
    {
      links := SetLink(links, link);
    }

    /** The candidate is imported in the original's place: it is linked, and a job of its own is begun for it. */
    method ImportOneMatch(link: Link, job: JobId)
      requires Valid() && job !in used
      modifies this
      ensures Valid() && (old(Fresh()) ==> Fresh()) && Now() == Step(old(Now()), ImportMatch(link, job))
      ensures if old(Runs(Now())) then Now() == old(Now())
              else link in links && Begun(job, link.candidate.source, [link.candidate.remote])
      ensures !old(Runs(Now())) ==>
                && Linked(old(links), links, link)
                && OthersStay(old(tracks), tracks, link.candidate.source, [link.candidate.remote])
    {
      LinkIsSet(links, link);
      QueueAnswers(tracks, link.candidate.source, [link.candidate.remote]);
      EventKeeps(Now(), ImportMatch(link, job));
      if run.Some? && run.value.phase == Running {
        return;
      }
      SetLinkUnique(links, link);
      QueuedStates(tracks, link.candidate.source, [link.candidate.remote]);
      LinkAndStart(link, job);
    }

    method LinkAndStart(link: Link, job: JobId)
      requires !Runs(Now())
      modifies this
      ensures Now() == StartMatch(old(Now()), link, job)
      ensures run == Some(ImportRun(link.candidate.source, job, Running, 1, 0, 0, 0, false))
      ensures active == [link.candidate.remote] && failures == [] && links == SetLink(old(links), link)
      ensures tracks == QueueAll(old(tracks), link.candidate.source, [link.candidate.remote])
      ensures nextId == old(nextId) + 1 && calls == old(calls)[old(nextId) := StartCall(job)]
    {
      LinkTo(link);
      Start([link.candidate.remote], false, link.candidate.source, job);
    }

    method NoteState(source: Source, job: JobId, remote: Remote, state: TrackState, completed: nat, total: nat)
      modifies this
      ensures Now() == ChangeTrack(old(Now()), TrackChanged(source, job, remote, state, completed, total))
    {
      if run.None? || run.value.phase != Running || run.value.source != source || run.value.job != job {
        return;
      }
      SetTrack(source, remote, state);
      SetCounters(completed, total);
    }

    method SetTrack(source: Source, remote: Remote, state: TrackState)
      modifies this`active, this`tracks, this`failures
      ensures active == if remote in old(active) then old(active) else old(active) + [remote]
      ensures tracks == old(tracks)[QueueId(source, remote) := state]
      ensures failures == NoteTrack(old(failures), remote, state)
    {
      if remote !in active {
        active := active + [remote];
      }
      tracks := tracks[QueueId(source, remote) := state];
      failures := NoteTrack(failures, remote, state);
    }

    method SetCounters(completed: nat, total: nat)
      requires run.Some?
      modifies this`run
      ensures run == Some(old(run).value.(imported := CountImported(tracks, old(run).value.source, active),
                                          skipped := CountSkipped(tracks, old(run).value.source, active),
                                          completed := completed, total := total))
    {
      var imported, skipped := Count(tracks, run.value.source, active);
      run := Some(run.value.(imported := imported, skipped := skipped, completed := completed, total := total));
    }

    /**
    A track event of the job under way sets the state of its track, which joins the job if it was not of it; any
    other event changes nothing. A track that was at its end leaves it exactly when the event says so.
    */
    method TakeTrackEvent(source: Source, job: JobId, remote: Remote, state: TrackState, completed: nat, total: nat)
      requires Valid()
      modifies this
      ensures Valid() && (old(Fresh()) ==> Fresh())
      ensures Now() == Step(old(Now()), TrackChanged(source, job, remote, state, completed, total))
      ensures if !old(Runs(Now())) || old(run).value.source != source || old(run).value.job != job
              then Now() == old(Now())
              else remote in active && QueueId(source, remote) in tracks && tracks[QueueId(source, remote)] == state
      ensures forall id <- old(tracks) ::
                id in tracks && (tracks[id] == old(tracks)[id] || id == QueueId(source, remote))
      ensures forall id <- old(tracks) | old(Runs(Now())) && IsTerminal(old(tracks), id) ::
                !IsTerminal(tracks, id) <==>
                  TakesBack(old(Now()), TrackChanged(source, job, remote, state, completed, total), id)
      ensures old(Runs(Now())) && old(run).value.source == source && old(run).value.job == job ==>
                EventShown(old(Now()), Now(), TrackChanged(source, job, remote, state, completed, total))
    {
      if Runs(Now()) && run.value.source == source && run.value.job == job {
        EventAnswers(Now(), TrackChanged(source, job, remote, state, completed, total));
      }
      EventKeeps(Now(), TrackChanged(source, job, remote, state, completed, total));
      NoteState(source, job, remote, state, completed, total);
    }

    /**
    A completed report of the job under way ends it, and settles the links unless one of them points back; any
    other report changes nothing.
    */
    method TakeCompletion(source: Source, job: JobId, p: Progress)
      requires Valid()
      modifies this
      ensures Valid() && (old(Fresh()) ==> Fresh())
      ensures Now() == Step(old(Now()), CompletionReported(source, job, p))
      ensures var heard := old(Runs(Now())) && old(run).value.source == p.source == source
                           && old(run).value.job == job && p.status == Completed;
              if !heard then Now() == old(Now())
              else Ended(source, old(active)) && run.value.completed == |p.imported| + |p.failed|
                   && ReportShown(old(Now()), Now(), p)
                   && (NoBackLink(old(links)) ==> OriginalsShown(old(Now()), Now(), p))
      ensures Now() != old(Now()) && NoBackLink(old(links)) ==> LinksSettled(old(links), tracks, links)
    {
      if Runs(Now()) && run.value.source == p.source == source && run.value.job == job && p.status == Completed {
        ReportAnswers(Now(), p, Some(job));
      }
      EventKeeps(Now(), CompletionReported(source, job, p));
      CompletionEnds(Now(), source, job, p);
      if run.None? || run.value.source != source || run.value.job != job
         || p.source != source || p.status != Completed {
        return;
      }
      TakeProgress(p, Some(job));
    }

    /** The decision goes to the backend together with the job it is meant for. */
    method ResolveConflict()
      requires Valid()
      modifies this`conflict, this`calls, this`nextId
      ensures Valid() && (old(Fresh()) ==> Fresh()) && Now() == Step(old(Now()), Event.ResolveConflict)
      ensures conflict.None? && run == old(run)
      ensures calls == old(calls)[old(nextId) := ContinueCall(if run.Some? then Some(run.value.job) else None)]
    {
      EventKeeps(Now(), Event.ResolveConflict);
      var expected := if run.Some? then Some(run.value.job) else None;
      conflict := None;
      Send(ContinueCall(expected));
    }

    /** A running job is asked to stop once; it runs on, shown as cancelling, until it is reported over. */
    method CancelImport()
      requires Valid()
      modifies this`run, this`calls, this`nextId
      ensures Valid() && (old(Fresh()) ==> Fresh()) && Now() == Step(old(Now()), Event.CancelImport)
      ensures Runs(Now()) == old(Runs(Now())) && (Runs(Now()) ==> run.value.cancelling)
      ensures if old(run).Some? && old(run).value.phase == Running && !old(run).value.cancelling
              then && run == Some(old(run).value.(cancelling := true))
                   && calls == old(calls)[old(nextId) := CancelCall(old(run).value)]
              else run == old(run) && calls == old(calls)
    {
      EventKeeps(Now(), Event.CancelImport);
      if run.None? || run.value.phase != Running || run.value.cancelling {
        return;
      }
      var captured := run.value;
      run := Some(captured.(cancelling := true));
      Send(CancelCall(captured));
    }

    /** A finished job is forgotten, a running one stays; no track changes. */
    method Dismiss()
      requires Valid()
      modifies this`run, this`failures
      ensures Valid() && (old(Fresh()) ==> Fresh()) && Now() == Step(old(Now()), Event.Dismiss)
      ensures if old(run).Some? && old(run).value.phase == Running then run == old(run) && failures == old(failures)
              else run.None? && failures == []
    {
      EventKeeps(Now(), Event.Dismiss);
      if run.None? || run.value.phase != Running {
        run, failures := None, [];
      }
    }

    /** Without a job to show the backend is asked for one under way. */
    method Recover()
      requires Valid()
      modifies this`calls, this`nextId
      ensures Valid() && (old(Fresh()) ==> Fresh()) && Now() == Step(old(Now()), Event.Recover)
      ensures calls == if run.Some? then old(calls) else old(calls)[old(nextId) := StatusCall]
    {
      EventKeeps(Now(), Event.Recover);
      if run.None? {
        Send(StatusCall);
      }
    }

    method TakeSnapshot(snapshot: Option<Snapshot>)
      modifies this
      ensures Now() == Recovered(old(Now()), snapshot)
    {
      if snapshot.None? || snapshot.value.phase == JobCompleted || run.Some? {
        return;
      }
      var shot := snapshot.value;
      var states, ids := Listed(tracks, shot.source, shot.tracks);
      var imported, skipped := Count(states, shot.source, ids);
      Resume(shot, states, ids, imported, skipped);
      if shot.phase == JobAwaitingDecision {
        Send(CancelRecoveredCall(shot.job));
      }
    }

    method Resume(shot: Snapshot, states: Tracks, ids: seq<Remote>, imported: nat, skipped: nat)
      modifies this`tracks, this`active, this`used, this`run
      ensures tracks == states && active == ids && used == old(used) + {shot.job}
      ensures run == Some(ImportRun(shot.source, shot.job, Running, shot.total, shot.completed, imported, skipped,
                                    false))
    {
      tracks, active, used := states, ids, used + {shot.job};
      run := Some(ImportRun(shot.source, shot.job, Running, shot.total, shot.completed, imported, skipped, false));
    }

    /** The states and the ids of a snapshot's tracks. */
    static method Listed(before: Tracks, source: Source, list: seq<(Remote, TrackState)>)
      returns (states: Tracks, ids: seq<Remote>)
      ensures states == TakeTracks(before, source, list)
      ensures ids == RemotesOf(list)
    {
      states, ids := before, [];
      for i := 0 to |list|
        invariant states == TakeTracks(before, source, list[..i])
        invariant |ids| == i && forall k | 0 <= k < i :: ids[k] == list[k].0
      {
        assert list[..i + 1][..i] == list[..i];
        states := states[QueueId(source, list[i].0) := list[i].1];
        ids := ids + [list[i].0];
      }
      assert list[..|list|] == list;
    }

    method Dispatch(k: nat, outcome: Outcome)
      requires k in calls && Fits(calls[k], outcome)
      modifies this
      ensures Now() == Step(old(Now()), Settle(k, outcome))
    {
      var call := calls[k];
      calls := calls - {k};
      match outcome {
        case ProgressIs(p) =>
          var expected := match call
            case StartCall(job) => Some(job)
            case ContinueCall(expected) => expected
            case CancelRecoveredCall(job) => Some(job);
          TakeProgress(p, expected);
        case StatusIs(snapshot) => TakeSnapshot(snapshot);
        case Done =>
        case Rejected =>
          match call {
            case StartCall(job) => TakeFailure(Some(job));
            case ContinueCall(expected) => TakeFailure(expected);
            case CancelCall(captured) =>
              if run.Some? && run.value.job == captured.job {
                run := Some(captured.(cancelling := false));
              }
            case _ =>
          }
      }
    }

    /**
    A backend call settles. A reply for another job or source leaves everything but the call as it was; one that
    ends the job leaves all its tracks at their end; and only the two kinds of late reply bring a job back.
    */
    method SettleCall(k: nat, outcome: Outcome)
      requires Valid() && k in calls && Fits(calls[k], outcome)
      modifies this
      ensures Valid() && Now() == Step(old(Now()), Settle(k, outcome))
      ensures old(Fresh()) ==> (Fresh() <==> !Revives(old(Now()), Settle(k, outcome)))
      ensures Foreign(old(Now()), Settle(k, outcome)) ==> Now() == old(Now()).(calls := old(calls) - {k})
      ensures Ends(old(Now()), Now()) ==> Ended(old(run).value.source, old(active))
      ensures ReplyShown(old(Now()), Now(), k, outcome)
    {
      ReplyAnswers(Now(), k, outcome);
      SettlingKeeps(Now(), k, outcome);
      Dispatch(k, outcome);
    }
  }

  // ---------- what the methods rest on ----------

  lemma QueuedStates(tracks: Tracks, source: Source, ids: seq<Remote>)
    ensures forall remote <- ids ::
              var id := QueueId(source, remote);
              id in QueueAll(tracks, source, ids) && QueueAll(tracks, source, ids)[id] == Queued
    decreases |ids|
  {
    if ids != [] {
      var n := |ids| - 1;
      QueuedStates(tracks, source, ids[..n]);
      assert ids == ids[..n] + [ids[n]];
    }
  }

  lemma EventKeeps(s: State, e: Event)
    requires JobsRecorded(s) && UniqueCandidates(s.links) && Possible(s, e) && !e.Settle?
    ensures JobsRecorded(Step(s, e)) && UniqueCandidates(Step(s, e).links) && (JobsOk(s) ==> JobsOk(Step(s, e)))
  {
    RecordsAreKept(s, e);
    LinksStayUnique(s, e);
    if JobsOk(s) {
      RevivedExactlyWhen(s, e);
    }
  }

  lemma CompletionEnds(s: State, source: Source, job: JobId, p: Progress)
    requires JobsRecorded(s)
    ensures var e := CompletionReported(source, job, p); var t := Step(s, e);
            if Runs(s) && s.run.value.source == p.source == source && s.run.value.job == job && p.status == Completed
            then && Concluded(t) && (forall remote <- s.active :: IsTerminal(t.tracks, QueueId(source, remote)))
                 && t.run.value.completed == |p.imported| + |p.failed|
                 && (NoBackLink(s.links) ==> LinksSettled(s.links, t.tracks, t.links))
            else t == s
  {
    if Runs(s) && s.run.value.source == p.source == source && s.run.value.job == job && p.status == Completed {
      ReportSettlesAll(s, p, Some(job));
      if NoBackLink(s.links) {
        CompletionSettlesLinks(s, CompletionReported(source, job, p));
      }
    }
  }

  lemma SettlingKeeps(s: State, k: nat, outcome: Outcome)
    requires JobsRecorded(s) && UniqueCandidates(s.links) && Possible(s, Settle(k, outcome))
    ensures var e := Settle(k, outcome); var t := Step(s, e);
            && JobsRecorded(t) && UniqueCandidates(t.links)
            && (JobsOk(s) ==> (JobsOk(t) <==> !Revives(s, e)))
            && (Foreign(s, e) ==> t == s.(calls := s.calls - {k}))
            && (Ends(s, t) ==>
                  && Concluded(t)
                  && forall remote <- s.active :: IsTerminal(t.tracks, QueueId(s.run.value.source, remote)))
  {
    var e := Settle(k, outcome);
    RecordsAreKept(s, e);
    LinksStayUnique(s, e);
    if JobsOk(s) {
      RevivedExactlyWhen(s, e);
    }
    if Foreign(s, e) {
      ForeignChangesNothing(s, e);
    }
    if Ends(s, Step(s, e)) {
      EndingSettlesAll(s, e);
    }
  }
}
