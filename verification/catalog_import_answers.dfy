/**
What the caller of the import half is shown after a reply, an event or a recovery: the state of each track, the
failures, the counters and the links, read off the report or the event itself.
*/
module CatalogImportAnswers {
  import opened Basics
  import opened CatalogImport
  import opened CatalogImportProofs

  // ---------- counters ----------

  /** The positions at which the ids are imported, and at which they are at their end otherwise. */
  ghost function ImportedAt(tracks: Tracks, source: Source, ids: seq<Remote>): set<nat> {
    set i: nat | i < |ids| && QueueId(source, ids[i]) in tracks && tracks[QueueId(source, ids[i])].Imported?
  }

  ghost function SkippedAt(tracks: Tracks, source: Source, ids: seq<Remote>): set<nat> {
    set i: nat | i < |ids| && QueueId(source, ids[i]) in tracks
                 && (tracks[QueueId(source, ids[i])].Skipped? || tracks[QueueId(source, ids[i])].Failed?)
  }

  lemma ImportedGrow(tracks: Tracks, source: Source, ids: seq<Remote>)
    requires ids != []
    ensures var n := |ids| - 1; var before := ImportedAt(tracks, source, ids[..n]);
            && n !in before
            && ImportedAt(tracks, source, ids)
               == if IsImported(tracks, QueueId(source, ids[n])) then before + {n} else before
  {
    var n := |ids| - 1;
    assert forall i: nat | i < n :: ids[..n][i] == ids[i];
  }

  lemma SkippedGrow(tracks: Tracks, source: Source, ids: seq<Remote>)
    requires ids != []
    ensures var n := |ids| - 1; var before := SkippedAt(tracks, source, ids[..n]); var id := QueueId(source, ids[n]);
            && n !in before
            && SkippedAt(tracks, source, ids)
               == if IsTerminal(tracks, id) && !IsImported(tracks, id) then before + {n} else before
  {
    var n := |ids| - 1;
    assert forall i: nat | i < n :: ids[..n][i] == ids[i];
  }

  lemma {:induction false} CountsAre(tracks: Tracks, source: Source, ids: seq<Remote>)
    ensures CountImported(tracks, source, ids) == |ImportedAt(tracks, source, ids)|
    ensures CountSkipped(tracks, source, ids) == |SkippedAt(tracks, source, ids)|
    decreases |ids|
  {
    if ids != [] {
      CountsAre(tracks, source, ids[..|ids| - 1]);
      ImportedGrow(tracks, source, ids);
      SkippedGrow(tracks, source, ids);
    }
  }

  // ---------- where links lead ----------

  predicate SameTrack(before: Tracks, after: Tracks, id: QueueId) {
    (id in before <==> id in after) && (id in before ==> after[id] == before[id])
  }

  /** The link hands its candidate's state to this track. */
  predicate LeadsTo(link: Link, after: Tracks, id: QueueId) {
    link.original == id && IsImported(after, link.candidate)
  }

  lemma {:induction false} OnlyOriginalsFollow(tracks: Tracks, links: seq<Link>, id: QueueId)
    requires forall l <- links :: l.original != id
    ensures SameTrack(tracks, Follow(tracks, links), id)
    decreases |links|
  {
    if links != [] {
      OnlyOriginalsFollow(tracks, links[..|links| - 1], id);
    }
  }

  /** The last of the links that hand their candidate's state to this track. */
  function LastTo(links: seq<Link>, after: Tracks, id: QueueId): Option<Link>
    decreases |links|
  {
    if links == [] then None
    else if LeadsTo(links[|links| - 1], after, id) then Some(links[|links| - 1])
    else LastTo(links[..|links| - 1], after, id)
  }

  lemma {:induction false} LastToSame(links: seq<Link>, before: Tracks, after: Tracks, id: QueueId)
    requires forall l <- links :: SameTrack(before, after, l.candidate)
    ensures LastTo(links, before, id) == LastTo(links, after, id)
    ensures LastTo(links, after, id).Some? ==> LastTo(links, after, id).value in links
    decreases |links|
  {
    if links != [] {
      var n := |links| - 1;
      assert links[n] in links && forall l <- links[..n] :: l in links;
      LastToSame(links[..n], before, after, id);
    }
  }

  /**
  With no back link a track ends with the state of the candidate that the last link to it was imported for, and
  keeps its own if there is none.
  */
  predicate Followed(before: Tracks, after: Tracks, links: seq<Link>, id: QueueId) {
    match LastTo(links, after, id)
    case None => SameTrack(before, after, id)
    case Some(link) => link.candidate in after && id in after && after[id] == after[link.candidate]
  }

  lemma FollowOnce(tracks: Tracks, links: seq<Link>)
    requires links != [] && NoBackLink(links)
    ensures var n := |links| - 1; var before := Follow(tracks, links[..n]); var after := Follow(tracks, links);
            && (forall l <- links[..n] :: SameTrack(before, after, l.candidate))
            && (forall id :: id != links[n].original || !IsImported(before, links[n].candidate) ==>
                  SameTrack(before, after, id))
            && (IsImported(before, links[n].candidate) <==> IsImported(after, links[n].candidate))
            && (IsImported(before, links[n].candidate) ==>
                  && links[n].original in after && links[n].candidate in after
                  && after[links[n].original] == after[links[n].candidate])
  {
    NoBackLinkPrefix(links);
  }

  lemma {:induction false} FollowExact(tracks: Tracks, links: seq<Link>, id: QueueId)
    requires NoBackLink(links)
    ensures Followed(tracks, Follow(tracks, links), links, id)
    decreases |links|
  {
    if links != [] {
      var n := |links| - 1;
      NoBackLinkPrefix(links);
      FollowExact(tracks, links[..n], id);
      FollowOnce(tracks, links);
      LastToSame(links[..n], Follow(tracks, links[..n]), Follow(tracks, links), id);
    }
  }

  // ---------- the end of a job ----------

  /** The track was being imported and had not come to its end. */
  predicate WasOpen(s: State, id: QueueId)
    requires s.run.Some?
  {
    id.source == s.run.value.source && id.remote in s.active && !IsTerminal(s.tracks, id)
  }

  /** The run is over with the counts of the report, whose failures are the ones shown. */
  ghost predicate ReportShown(s: State, t: State, p: Progress)
    requires s.run.Some?
  {
    && t.failures == p.failed && t.conflict.None? && t.active == []
    && t.run == Some(s.run.value.(imported := |p.imported|, skipped := |p.failed|,
                                  completed := |p.imported| + |p.failed|, phase := Finished, cancelling := false))
    && (forall id: QueueId :: (forall l <- s.links :: l.original != id) ==>
          if WasOpen(s, id) then id in t.tracks && ReportSays(p.failed, id.remote, t.tracks[id])
          else SameTrack(s.tracks, t.tracks, id))
  }

  /** With no link that points back the originals too have the states they are owed. */
  ghost predicate OriginalsShown(s: State, t: State, p: Progress)
    requires s.run.Some?
  {
    forall id: QueueId ::
      match LastTo(s.links, t.tracks, id)
      case Some(link) => link.candidate in t.tracks && id in t.tracks && t.tracks[id] == t.tracks[link.candidate]
      case None =>
        if WasOpen(s, id) then id in t.tracks && ReportSays(p.failed, id.remote, t.tracks[id])
        else SameTrack(s.tracks, t.tracks, id)
  }

  lemma ReportAnswers(s: State, p: Progress, job: Option<JobId>)
    requires Runs(s) && job == Some(s.run.value.job) && p.source == s.run.value.source && p.status == Completed
    ensures ReportShown(s, ApplyProgress(s, p, job), p)
    ensures NoBackLink(s.links) ==> OriginalsShown(s, ApplyProgress(s, p, job), p)
  {
    var source := s.run.value.source;
    var marked := Mark(s.tracks, source, s.active, p.failed);
    var t := ApplyProgress(s, p, job);
    forall id | forall l <- s.links :: l.original != id
      ensures if WasOpen(s, id) then id in t.tracks && ReportSays(p.failed, id.remote, t.tracks[id])
              else SameTrack(s.tracks, t.tracks, id)
    {
      MarkExact(s.tracks, source, s.active, p.failed, id);
      OnlyOriginalsFollow(marked, s.links, id);
    }
    if NoBackLink(s.links) {
      OriginalsAnswer(s, p, job);
    }
  }

  lemma OriginalsAnswer(s: State, p: Progress, job: Option<JobId>)
    requires Runs(s) && job == Some(s.run.value.job) && p.source == s.run.value.source && p.status == Completed
    requires NoBackLink(s.links)
    ensures OriginalsShown(s, ApplyProgress(s, p, job), p)
  {
    var source := s.run.value.source;
    var marked := Mark(s.tracks, source, s.active, p.failed);
    var t := ApplyProgress(s, p, job);
    assert t.tracks == Follow(marked, s.links);
    forall id
      ensures Followed(marked, t.tracks, s.links, id)
      ensures if WasOpen(s, id) then id in marked && ReportSays(p.failed, id.remote, marked[id])
              else SameTrack(s.tracks, marked, id)
    {
      MarkExact(s.tracks, source, s.active, p.failed, id);
      FollowExact(marked, s.links, id);
    }
  }

  /** The command failed: what was open has failed too, the counters count the tracks, and the rest stays. */
  ghost predicate FailureShown(s: State, t: State)
    requires s.run.Some?
  {
    var source := s.run.value.source;
    && t.failures == s.failures && t.conflict.None? && t.active == [] && t.links == s.links
    && t.run == Some(s.run.value.(imported := |ImportedAt(t.tracks, source, s.active)|,
                                  skipped := |SkippedAt(t.tracks, source, s.active)|,
                                  completed := |s.active|, phase := Finished, cancelling := false))
    && (forall id: QueueId :: if WasOpen(s, id) then id in t.tracks && t.tracks[id] == Failed("import_failed")
                     else SameTrack(s.tracks, t.tracks, id))
  }

  lemma FailureAnswers(s: State, job: Option<JobId>)
    requires Runs(s) && job == Some(s.run.value.job)
    ensures FailureShown(s, FailImport(s, job))
  {
    var source := s.run.value.source;
    var t := FailImport(s, job);
    CountsAre(t.tracks, source, s.active);
    FailAllTerminal(s.tracks, source, s.active);
    CountsAddUp(t.tracks, source, s.active);
    forall id ensures if WasOpen(s, id) then id in t.tracks && t.tracks[id] == Failed("import_failed")
                      else SameTrack(s.tracks, t.tracks, id) {
      FailAllExact(s.tracks, source, s.active, id);
    }
  }

  // ---------- one track ----------

  /** The failures that are not of this track, in their order, read from the newest back. */
  function Others(failures: seq<Failure>, remote: Remote): seq<Failure>
    decreases |failures|
  {
    if failures == [] then []
    else
      var newest := failures[|failures| - 1];
      Others(failures[..|failures| - 1], remote) + if newest.remote != remote then [newest] else []
  }

  /** What the failures become once a track is reported on: an entry of its own takes the place of any it had. */
  ghost predicate FailuresNoted(before: seq<Failure>, after: seq<Failure>, remote: Remote, state: TrackState) {
    match state
    case Skipped(refusal) =>
      after == Others(before, remote) + [Failure(remote, "refusal", Some(refusal))]
    case Failed(reason) =>
      after == Others(before, remote) + [Failure(remote, reason, None)]
    case _ => after == before
  }

  lemma {:induction false} OldestFirst(failures: seq<Failure>, remote: Remote)
    requires failures != []
    ensures Others(failures, remote)
         == (if failures[0].remote != remote then [failures[0]] else []) + Others(failures[1..], remote)
    decreases |failures|
  {
    if |failures| > 1 {
      OldestFirst(failures[..|failures| - 1], remote);
      assert failures[..|failures| - 1][1..] == failures[1..][..|failures| - 2];
    }
  }

  lemma {:induction false} ForgetIsOthers(failures: seq<Failure>, remote: Remote)
    ensures ForgetFailure(failures, remote) == Others(failures, remote)
    decreases |failures|
  {
    if failures != [] {
      ForgetIsOthers(failures[1..], remote);
      OldestFirst(failures, remote);
    }
  }

  lemma {:induction false} OthersAre(failures: seq<Failure>, remote: Remote)
    ensures forall f :: f in Others(failures, remote) <==> f in failures && f.remote != remote
    decreases |failures|
  {
    if failures != [] {
      OthersAre(failures[..|failures| - 1], remote);
      assert failures == failures[..|failures| - 1] + [failures[|failures| - 1]];
    }
  }

  lemma NotedAre(failures: seq<Failure>, remote: Remote, state: TrackState)
    ensures FailuresNoted(failures, NoteTrack(failures, remote, state), remote, state)
  {
    ForgetIsOthers(failures, remote);
  }

  /** The event sets its own track, whose counters it counts anew, and nothing else. */
  ghost predicate EventShown(s: State, t: State, e: Event)
    requires e.TrackChanged? && s.run.Some?
  {
    && t.tracks == s.tracks[QueueId(e.source, e.remote) := e.state]
    && t.active == (if e.remote in s.active then s.active else s.active + [e.remote])
    && FailuresNoted(s.failures, t.failures, e.remote, e.state)
    && t.run == Some(s.run.value.(imported := |ImportedAt(t.tracks, e.source, t.active)|,
                                  skipped := |SkippedAt(t.tracks, e.source, t.active)|,
                                  completed := e.completed, total := e.total))
    && t.links == s.links && t.conflict == s.conflict && t.calls == s.calls
  }

  lemma EventAnswers(s: State, e: Event)
    requires e.TrackChanged? && Runs(s) && s.run.value.source == e.source && s.run.value.job == e.job
    ensures EventShown(s, ChangeTrack(s, e), e)
  {
    var t := ChangeTrack(s, e);
    CountsAre(t.tracks, e.source, t.active);
    NotedAre(s.failures, e.remote, e.state);
  }

  // ---------- links and recovery ----------

  /** A candidate that is linked already keeps its place. */
  lemma {:induction false} LinkReplaced(links: seq<Link>, link: Link, i: nat)
    requires i < |links| && links[i].candidate == link.candidate
    requires forall j | 0 <= j < i :: links[j].candidate != link.candidate
    ensures SetLink(links, link) == links[i := link]
    decreases |links|
  {
    if i > 0 {
      LinkReplaced(links[1..], link, i - 1);
    }
  }

  /** A new candidate comes last. */
  lemma {:induction false} LinkAppended(links: seq<Link>, link: Link)
    requires forall l <- links :: l.candidate != link.candidate
    ensures SetLink(links, link) == links + [link]
    decreases |links|
  {
    if links != [] {
      LinkAppended(links[1..], link);
    }
  }

  /** The links with one more: in place of that of the same candidate, or behind them all. */
  predicate Linked(before: seq<Link>, after: seq<Link>, link: Link) {
    if forall l <- before :: l.candidate != link.candidate then after == before + [link]
    else exists i | 0 <= i < |before| :: before[i].candidate == link.candidate && after == before[i := link]
  }

  lemma LinkIsSet(links: seq<Link>, link: Link)
    ensures Linked(links, SetLink(links, link), link)
  {
    if forall l <- links :: l.candidate != link.candidate {
      LinkAppended(links, link);
    } else {
      var i := FirstOf(links, link.candidate);
      LinkReplaced(links, link, i);
    }
  }

  lemma FirstOf(links: seq<Link>, candidate: QueueId) returns (i: nat)
    requires exists l <- links :: l.candidate == candidate
    ensures i < |links| && links[i].candidate == candidate && forall j | 0 <= j < i :: links[j].candidate != candidate
  {
    i := 0;
    while links[i].candidate != candidate
      invariant i < |links| && forall j | 0 <= j < i :: links[j].candidate != candidate
      decreases |links| - i
    {
      i := i + 1;
    }
  }

  lemma {:induction false} QueueOthers(tracks: Tracks, source: Source, ids: seq<Remote>, id: QueueId)
    requires id.source != source || id.remote !in ids
    ensures SameTrack(tracks, QueueAll(tracks, source, ids), id)
    decreases |ids|
  {
    if ids != [] {
      QueueOthers(tracks, source, ids[..|ids| - 1], id);
    }
  }

  /** Queueing the ids of a source changes the tracks of no others. */
  ghost predicate OthersStay(before: Tracks, after: Tracks, source: Source, ids: seq<Remote>) {
    forall id: QueueId :: id.source != source || id.remote !in ids ==> SameTrack(before, after, id)
  }

  lemma QueueAnswers(tracks: Tracks, source: Source, ids: seq<Remote>)
    ensures OthersStay(tracks, QueueAll(tracks, source, ids), source, ids)
  {
    forall id: QueueId | id.source != source || id.remote !in ids
      ensures SameTrack(tracks, QueueAll(tracks, source, ids), id)
    {
      QueueOthers(tracks, source, ids, id);
    }
  }

  /** The track's last entry in the list, or none. */
  predicate LastListed(list: seq<(Remote, TrackState)>, remote: Remote, i: nat) {
    && i < |list| && list[i].0 == remote && (forall j | i < j < |list| :: list[j].0 != remote)
  }

  lemma {:induction false} TakenAre(tracks: Tracks, source: Source, list: seq<(Remote, TrackState)>, id: QueueId)
    ensures var after := TakeTracks(tracks, source, list);
            && (id.source == source ==> forall i: nat :: LastListed(list, id.remote, i) ==>
                  id in after && after[id] == list[i].1)
            && (id.source != source || (forall entry <- list :: entry.0 != id.remote) ==> SameTrack(tracks, after, id))
    decreases |list|
  {
    if list != [] {
      var n := |list| - 1;
      TakenAre(tracks, source, list[..n], id);
      forall i: nat | LastListed(list, id.remote, i) ensures i == n || LastListed(list[..n], id.remote, i) {
      }
    }
  }

  /** A job that the backend still has is shown running, with its tracks as the backend lists them. */
  ghost predicate RecoveryShown(s: State, t: State, shot: Snapshot) {
    && |t.active| == |shot.tracks| && (forall i | 0 <= i < |shot.tracks| :: t.active[i] == shot.tracks[i].0)
    && t.run == Some(ImportRun(shot.source, shot.job, Running, shot.total, shot.completed,
                               |ImportedAt(t.tracks, shot.source, t.active)|,
                               |SkippedAt(t.tracks, shot.source, t.active)|, false))
    && (forall id: QueueId ::
          && (id.source == shot.source ==> forall i: nat :: LastListed(shot.tracks, id.remote, i) ==>
                id in t.tracks && t.tracks[id] == shot.tracks[i].1)
          && (id.source != shot.source || (forall entry <- shot.tracks :: entry.0 != id.remote) ==>
                SameTrack(s.tracks, t.tracks, id)))
    && t.failures == s.failures && t.links == s.links && t.conflict == s.conflict
    && t.calls == (if shot.phase == JobAwaitingDecision then s.calls[s.nextId := CancelRecoveredCall(shot.job)]
                   else s.calls)
  }

  lemma RecoveryAnswers(s: State, shot: Snapshot)
    requires s.run.None? && shot.phase != JobCompleted
    ensures RecoveryShown(s, Recovered(s, Some(shot)), shot)
  {
    var t := Recovered(s, Some(shot));
    CountsAre(t.tracks, shot.source, t.active);
    forall id: QueueId {
      TakenAre(s.tracks, shot.source, shot.tracks, id);
    }
  }

  // ---------- a reply ----------

  /** The job a reply speaks for; a cancellation and a status speak for none. */
  function JobOf(call: Call): Option<JobId> {
    match call
    case StartCall(job) => Some(job)
    case ContinueCall(expected) => expected
    case CancelRecoveredCall(job) => Some(job)
    case _ => None
  }

  /** What a settled call shows, kind by kind. */
  ghost predicate ReplyShown(s: State, t: State, k: nat, outcome: Outcome)
    requires k in s.calls && Fits(s.calls[k], outcome)
  {
    var call := s.calls[k]; var rest := s.(calls := s.calls - {k});
    var heard := Runs(s) && JobOf(call) == Some(s.run.value.job);
    match outcome
    case ProgressIs(p) =>
      if !heard || p.source != s.run.value.source then t == rest
      else if p.status == AwaitingDecision then t == rest.(conflict := p.conflict, failures := p.failed)
      else ReportShown(s, t, p) && (NoBackLink(s.links) ==> OriginalsShown(s, t, p))
    case StatusIs(snapshot) =>
      if s.run.Some? || snapshot.None? || snapshot.value.phase == JobCompleted then t == rest
      else RecoveryShown(rest, t, snapshot.value)
    case Done => t == rest
    case Rejected =>
      match call
      case CancelCall(captured) =>
        t == if s.run.Some? && s.run.value.job == captured.job
             then rest.(run := Some(captured.(cancelling := false))) else rest
      case StatusCall => t == rest
      case CancelRecoveredCall(_) => t == rest
      case _ => if heard then FailureShown(s, t) else t == rest
  }

  lemma ProgressAnswers(s: State, k: nat, p: Progress)
    requires k in s.calls
    ensures var rest := s.(calls := s.calls - {k}); var t := ApplyProgress(rest, p, JobOf(s.calls[k]));
            if !Runs(s) || JobOf(s.calls[k]) != Some(s.run.value.job) || p.source != s.run.value.source then t == rest
            else if p.status == AwaitingDecision then t == rest.(conflict := p.conflict, failures := p.failed)
            else ReportShown(s, t, p) && (NoBackLink(s.links) ==> OriginalsShown(s, t, p))
  {
    var rest := s.(calls := s.calls - {k});
    if Runs(s) && JobOf(s.calls[k]) == Some(s.run.value.job)
       && p.source == s.run.value.source && p.status == Completed {
      ReportAnswers(rest, p, JobOf(s.calls[k]));
    }
  }

  lemma ReplyAnswers(s: State, k: nat, outcome: Outcome)
    requires k in s.calls && Fits(s.calls[k], outcome)
    ensures ReplyShown(s, SettleStep(s, k, outcome), k, outcome)
  {
    var rest := s.(calls := s.calls - {k});
    var job := JobOf(s.calls[k]);
    if outcome.ProgressIs? {
      ProgressAnswers(s, k, outcome.progress);
    } else if outcome.StatusIs? {
      if s.run.None? && outcome.snapshot.Some? && outcome.snapshot.value.phase != JobCompleted {
        RecoveryAnswers(rest, outcome.snapshot.value);
      }
    } else if outcome.Rejected? && Runs(s) && job == Some(s.run.value.job) {
      FailureAnswers(rest, job);
    }
  }

}
