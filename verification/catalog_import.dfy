/**
The import half of the catalog store. One job runs at a time; its end is reported over three channels
that race each other: the reply to the command that started or continued it, the progress events, and
the completion event. `Step` is one synchronous piece of code, so a sequence of events is any race.
*/
module CatalogImport {
  import opened Basics

  type Source = string
  type Remote = string
  type JobId = string

  datatype QueueId = QueueId(source: Source, remote: Remote)

  datatype TrackState =
    | Queued | Downloading | Importing
    | Imported(song: string) | Skipped(refusal: string) | Failed(reason: string)

  predicate Terminal(state: TrackState) {
    state.Imported? || state.Skipped? || state.Failed?
  }

  type Tracks = map<QueueId, TrackState>

  predicate IsTerminal(tracks: Tracks, id: QueueId) {
    id in tracks && Terminal(tracks[id])
  }

  predicate IsImported(tracks: Tracks, id: QueueId) {
    id in tracks && tracks[id].Imported?
  }

  datatype Failure = Failure(remote: Remote, reason: string, refusal: Option<string>)

  datatype Status = Completed | AwaitingDecision
  datatype Progress = Progress(
    source: Source, status: Status, imported: seq<string>, failed: seq<Failure>, conflict: Option<string>)

  datatype Phase = Running | Finished
  datatype ImportRun = ImportRun(
    source: Source, job: JobId, phase: Phase, total: nat,
    completed: nat, imported: nat, skipped: nat, cancelling: bool)

  /** A candidate that is imported in place of a refused original. */
  datatype Link = Link(candidate: QueueId, original: QueueId)

  datatype JobPhase = JobRunning | JobAwaitingDecision | JobCompleted

  /** What the backend tells of a job that was under way before the application started. */
  datatype Snapshot = Snapshot(
    source: Source, job: JobId, phase: JobPhase, completed: nat, total: nat,
    tracks: seq<(Remote, TrackState)>)

  datatype Call =
    | StartCall(job: JobId)
    | ContinueCall(expected: Option<JobId>)
    | CancelCall(captured: ImportRun)
    | StatusCall
    | CancelRecoveredCall(job: JobId)

  /** `finished` is a history variable: the jobs that have reached their end. */
  datatype State = State(
    tracks: Tracks, active: seq<Remote>, failures: seq<Failure>, conflict: Option<string>,
    run: Option<ImportRun>, links: seq<Link>,
    calls: map<nat, Call>, nextId: nat, used: set<JobId>, finished: set<JobId>)

  const INITIAL := State(map[], [], [], None, None, [], map[], 0, {}, {})

  datatype Outcome =
    | ProgressIs(progress: Progress)
    | StatusIs(snapshot: Option<Snapshot>)
    | Done
    | Rejected

  datatype Event =
    | ImportTracks(ids: seq<Remote>, wholePlaylist: bool, source: Source, job: JobId)
    | LinkCandidate(link: Link)
    | ImportMatch(link: Link, job: JobId)
    | ResolveConflict
    | TrackChanged(source: Source, job: JobId, remote: Remote, state: TrackState, completed: nat, total: nat)
    | CompletionReported(source: Source, job: JobId, progress: Progress)
    | CancelImport
    | Dismiss
    | Recover
    | Settle(call: nat, outcome: Outcome)

  // ---------- helpers ----------

  predicate Runs(s: State) {
    s.run.Some? && s.run.value.phase == Running
  }

  function AddCall(s: State, call: Call): State {
    s.(calls := s.calls[s.nextId := call], nextId := s.nextId + 1)
  }

  /** How many of the ids are imported, and how many are skipped or failed. */
  function CountImported(tracks: Tracks, source: Source, ids: seq<Remote>): nat {
    if ids == [] then 0
    else CountImported(tracks, source, ids[..|ids| - 1])
         + if IsImported(tracks, QueueId(source, ids[|ids| - 1])) then 1 else 0
  }

  function CountSkipped(tracks: Tracks, source: Source, ids: seq<Remote>): nat {
    if ids == [] then 0
    else CountSkipped(tracks, source, ids[..|ids| - 1])
         + if IsTerminal(tracks, QueueId(source, ids[|ids| - 1]))
              && !IsImported(tracks, QueueId(source, ids[|ids| - 1])) then 1 else 0
  }

  function FindFailure(failed: seq<Failure>, remote: Remote): Option<Failure> {
    if failed == [] then None
    else if failed[0].remote == remote then Some(failed[0])
    else FindFailure(failed[1..], remote)
  }

  /** What the final report says of one track. */
  function Reported(failed: seq<Failure>, remote: Remote): TrackState {
    match FindFailure(failed, remote)
    case None => Imported("")
    case Some(f) => if f.refusal.Some? then Skipped(f.refusal.value) else Failed(f.reason)
  }

  /** Every active track that is not yet at its end takes the state the final report gives it. */
  function Mark(tracks: Tracks, source: Source, ids: seq<Remote>, failed: seq<Failure>): Tracks {
    if ids == [] then tracks
    else
      var before := Mark(tracks, source, ids[..|ids| - 1], failed);
      var remote := ids[|ids| - 1];
      var id := QueueId(source, remote);
      if IsTerminal(before, id) then before else before[id := Reported(failed, remote)]
  }

  /** Every active track that is not yet at its end has failed. */
  function FailAll(tracks: Tracks, source: Source, ids: seq<Remote>): Tracks {
    if ids == [] then tracks
    else
      var before := FailAll(tracks, source, ids[..|ids| - 1]);
      var id := QueueId(source, ids[|ids| - 1]);
      if IsTerminal(before, id) then before else before[id := Failed("import_failed")]
  }

  /** Hands imported candidates' states to their originals, link by link in insertion order. */
  function Follow(tracks: Tracks, links: seq<Link>): Tracks {
    if links == [] then tracks
    else
      var before := Follow(tracks, links[..|links| - 1]);
      var link := links[|links| - 1];
      if IsImported(before, link.candidate) then before[link.original := before[link.candidate]] else before
  }

  /** The links whose candidate was not at its end when the loop came by. */
  function Kept(tracks: Tracks, links: seq<Link>): seq<Link> {
    if links == [] then []
    else
      var before := links[..|links| - 1];
      var link := links[|links| - 1];
      Kept(tracks, before) + if IsTerminal(Follow(tracks, links), link.candidate) then [] else [link]
  }

  /** `Map.set`: a known key keeps its place. */
  function SetLink(links: seq<Link>, link: Link): seq<Link> {
    if links == [] then [link]
    else if links[0].candidate == link.candidate then [link] + links[1..]
    else [links[0]] + SetLink(links[1..], link)
  }

  // ---------- the three channels ----------

  function ApplyProgress(s: State, p: Progress, job: Option<JobId>): State {
    if !Runs(s) || job != Some(s.run.value.job) || p.source != s.run.value.source then s
    else if p.status == AwaitingDecision then s.(conflict := p.conflict, failures := p.failed)
    else
      var run := s.run.value;
      var marked := Mark(s.tracks, run.source, s.active, p.failed);
      EndedRun(s.(links := Kept(marked, s.links)), p, Follow(marked, s.links))
  }

  function EndedRun(s: State, p: Progress, tracks: Tracks): State
    requires s.run.Some?
  {
    s.(tracks := tracks, conflict := None, failures := p.failed, active := [],
       finished := s.finished + {s.run.value.job},
       run := Some(s.run.value.(imported := |p.imported|, skipped := |p.failed|,
                                completed := |p.imported| + |p.failed|, phase := Finished, cancelling := false)))
  }

  function FailImport(s: State, job: Option<JobId>): State {
    if !Runs(s) || job != Some(s.run.value.job) then s
    else
      var run := s.run.value;
      var tracks := FailAll(s.tracks, run.source, s.active);
      var imported := CountImported(tracks, run.source, s.active);
      var skipped := CountSkipped(tracks, run.source, s.active);
      s.(tracks := tracks, active := [], conflict := None,
         finished := s.finished + {run.job},
         run := Some(run.(imported := imported, skipped := skipped, completed := imported + skipped,
                          phase := Finished, cancelling := false)))
  }

  function ForgetFailure(failures: seq<Failure>, remote: Remote): seq<Failure> {
    if failures == [] then []
    else (if failures[0].remote == remote then [] else [failures[0]]) + ForgetFailure(failures[1..], remote)
  }

  function NoteTrack(failures: seq<Failure>, remote: Remote, state: TrackState): seq<Failure> {
    match state
    case Skipped(refusal) => ForgetFailure(failures, remote) + [Failure(remote, "refusal", Some(refusal))]
    case Failed(reason) => ForgetFailure(failures, remote) + [Failure(remote, reason, None)]
    case _ => failures
  }

  function ChangeTrack(s: State, e: Event): State
    requires e.TrackChanged?
  {
    if !Runs(s) || s.run.value.source != e.source || s.run.value.job != e.job then s
    else
      var run := s.run.value;
      var active := if e.remote in s.active then s.active else s.active + [e.remote];
      var tracks := s.tracks[QueueId(e.source, e.remote) := e.state];
      s.(tracks := tracks, active := active, failures := NoteTrack(s.failures, e.remote, e.state),
         run := Some(run.(imported := CountImported(tracks, run.source, active),
                          skipped := CountSkipped(tracks, run.source, active),
                          completed := e.completed, total := e.total)))
  }

  // ---------- actions ----------

  function QueueAll(tracks: Tracks, source: Source, ids: seq<Remote>): Tracks {
    if ids == [] then tracks
    else QueueAll(tracks, source, ids[..|ids| - 1])[QueueId(source, ids[|ids| - 1]) := Queued]
  }

  function StartImport(s: State, ids: seq<Remote>, wholePlaylist: bool, source: Source, job: JobId): State {
    if Runs(s) || (ids == [] && !wholePlaylist) then s
    else AddCall(
      s.(tracks := QueueAll(s.tracks, source, ids), active := ids, failures := [], used := s.used + {job},
         run := Some(ImportRun(source, job, Running, |ids|, 0, 0, 0, false))),
      StartCall(job))
  }

  function StartMatch(s: State, link: Link, job: JobId): State {
    if Runs(s) then s
    else StartImport(s.(links := SetLink(s.links, link)), [link.candidate.remote], false, link.candidate.source, job)
  }

  function RequestCancel(s: State): State {
    if !Runs(s) || s.run.value.cancelling then s
    else AddCall(s.(run := Some(s.run.value.(cancelling := true))), CancelCall(s.run.value))
  }

  /** The error branch puts back the run as it was when the cancellation was asked for. */
  function CancelRejected(s: State, captured: ImportRun): State {
    if s.run.Some? && s.run.value.job == captured.job then s.(run := Some(captured.(cancelling := false))) else s
  }

  function TakeTracks(tracks: Tracks, source: Source, list: seq<(Remote, TrackState)>): Tracks {
    if list == [] then tracks
    else TakeTracks(tracks, source, list[..|list| - 1])[QueueId(source, list[|list| - 1].0) := list[|list| - 1].1]
  }

  function RemotesOf(list: seq<(Remote, TrackState)>): (ids: seq<Remote>)
    ensures |ids| == |list| && forall i | 0 <= i < |list| :: ids[i] == list[i].0
  {
    seq(|list|, i requires 0 <= i < |list| => list[i].0)
  }

  function Recovered(s: State, snapshot: Option<Snapshot>): State {
    if snapshot.None? || snapshot.value.phase == JobCompleted || s.run.Some? then s
    else
      var shot := snapshot.value;
      var tracks := TakeTracks(s.tracks, shot.source, shot.tracks);
      var ids := RemotesOf(shot.tracks);
      var back := s.(
        tracks := tracks, active := ids, used := s.used + {shot.job},
        run := Some(ImportRun(shot.source, shot.job, Running, shot.total, shot.completed,
                              CountImported(tracks, shot.source, ids), CountSkipped(tracks, shot.source, ids), false)));
      if shot.phase == JobAwaitingDecision then AddCall(back, CancelRecoveredCall(shot.job)) else back
  }

  function SettleStep(s: State, k: nat, outcome: Outcome): State
    requires k in s.calls
  {
    var rest := s.(calls := s.calls - {k});
    match s.calls[k]
    case StartCall(job) =>
      if outcome.ProgressIs? then ApplyProgress(rest, outcome.progress, Some(job)) else FailImport(rest, Some(job))
    case ContinueCall(expected) =>
      if outcome.ProgressIs? then ApplyProgress(rest, outcome.progress, expected) else FailImport(rest, expected)
    case CancelCall(captured) => if outcome.Rejected? then CancelRejected(rest, captured) else rest
    case StatusCall => if outcome.StatusIs? then Recovered(rest, outcome.snapshot) else rest
    case CancelRecoveredCall(job) =>
      if outcome.ProgressIs? then ApplyProgress(rest, outcome.progress, Some(job)) else rest
  }

  predicate Fits(call: Call, outcome: Outcome) {
    match call
    case CancelCall(_) => outcome.Done? || outcome.Rejected?
    case StatusCall => outcome.StatusIs? || outcome.Rejected?
    case _ => outcome.ProgressIs? || outcome.Rejected?
  }

  /** Job ids are random, so a new one was never used before. */
  predicate Possible(s: State, e: Event) {
    match e
    case Settle(k, outcome) => k in s.calls && Fits(s.calls[k], outcome)
    case ImportTracks(_, _, _, job) => job !in s.used
    case ImportMatch(_, job) => job !in s.used
    case _ => true
  }

  function Step(s: State, e: Event): State
    requires Possible(s, e)
  {
    match e
    case ImportTracks(ids, wholePlaylist, source, job) => StartImport(s, ids, wholePlaylist, source, job)
    case LinkCandidate(link) => s.(links := SetLink(s.links, link))
    case ImportMatch(link, job) => StartMatch(s, link, job)
    case ResolveConflict =>
      AddCall(s.(conflict := None), ContinueCall(if s.run.Some? then Some(s.run.value.job) else None))
    case TrackChanged(_, _, _, _, _, _) => ChangeTrack(s, e)
    case CompletionReported(source, job, p) =>
      if s.run.Some? && s.run.value.source == source && s.run.value.job == job
         && p.source == source && p.status == Completed
      then ApplyProgress(s, p, Some(job)) else s
    case CancelImport => RequestCancel(s)
    case Dismiss => if Runs(s) then s else s.(run := None, failures := [])
    case Recover => if s.run.Some? then s else AddCall(s, StatusCall)
    case Settle(k, outcome) => SettleStep(s, k, outcome)
  }
}
