/**
The import jobs behind a confirmation: what the end of a job accounts for, what that means for the rows of the
dialog, and how rows are lost.
*/
module MatchJobs {
  import opened Basics
  import opened MatchPool
  import opened MatchConfirm
  import Import = CatalogImport
  import Proofs = CatalogImportProofs

  // ---------- the job of one group ----------

  /**
  A job: the store it was started in, what happened while it ran, the store before its end,
  and the event that ended it.
  */
  datatype JobRun = JobRun(
    start: Import.State, job: Import.JobId, es: seq<Import.Event>, before: Import.State, last: Import.Event)

  predicate IsUnderWay(s: Import.State, job: Import.JobId) {
    Import.Runs(s) && s.run.value.job == job
  }

  /** The events lead from `s` to `t`, and the job is under way all the time. */
  ghost predicate UnderWay(s: Import.State, es: seq<Import.Event>, t: Import.State, job: Import.JobId)
    decreases |es|
  {
    && IsUnderWay(s, job)
    && if es == [] then s == t else Import.Possible(s, es[0]) && UnderWay(Import.Step(s, es[0]), es[1..], t, job)
  }

  function Begun(j: JobRun, source: string, ids: seq<string>): Import.State
    requires j.job !in j.start.used
  {
    Import.Step(j.start, Import.ImportTracks(ids, false, source, j.job))
  }

  /** The job imports these ids of the source: it was started with them, ran on, and came to its end. */
  ghost predicate Imports(j: JobRun, source: string, ids: seq<string>) {
    && Proofs.JobsRecorded(j.start) && !Import.Runs(j.start) && j.job !in j.start.used
    && UnderWay(Begun(j, source, ids), j.es, j.before, j.job)
    && Import.Possible(j.before, j.last) && Proofs.Ends(j.before, Import.Step(j.before, j.last))
  }

  function After(j: JobRun): Import.State
    requires Import.Possible(j.before, j.last)
  {
    Import.Step(j.before, j.last)
  }

  // ---------- a job keeps its source and its ids ----------

  /** The job is still that of the source, with at least the ids it was started with. */
  ghost predicate Keeps(s: Import.State, job: Import.JobId, source: string, ids: seq<string>) {
    && IsUnderWay(s, job) && s.run.value.source == source && ids <= s.active
    && Proofs.JobsRecorded(s)
    && (forall k <- s.calls :: s.calls[k].CancelCall? && s.calls[k].captured.job == job ==>
          s.calls[k].captured.source == source)
  }

  lemma BegunKeeps(j: JobRun, source: string, ids: seq<string>)
    requires Proofs.JobsRecorded(j.start) && !Import.Runs(j.start) && j.job !in j.start.used && ids != []
    ensures Keeps(Begun(j, source, ids), j.job, source, ids)
  {
    Proofs.RecordsAreKept(j.start, Import.ImportTracks(ids, false, source, j.job));
  }

  lemma SettlementKeeps(s: Import.State, e: Import.Event, job: Import.JobId, source: string, ids: seq<string>)
    requires Keeps(s, job, source, ids) && Import.Possible(s, e) && e.Settle? && IsUnderWay(Import.Step(s, e), job)
    ensures Keeps(Import.Step(s, e), job, source, ids)
  {
    Proofs.RecordsAreKept(s, e);
  }

  lemma EventKeeps(s: Import.State, e: Import.Event, job: Import.JobId, source: string, ids: seq<string>)
    requires Keeps(s, job, source, ids) && Import.Possible(s, e) && !e.Settle? && IsUnderWay(Import.Step(s, e), job)
    ensures Keeps(Import.Step(s, e), job, source, ids)
  {
    Proofs.RecordsAreKept(s, e);
  }

  lemma {:induction false} UnderWayKeeps(s: Import.State, es: seq<Import.Event>, t: Import.State, job: Import.JobId,
                                         source: string, ids: seq<string>)
    requires Keeps(s, job, source, ids) && UnderWay(s, es, t, job)
    ensures Keeps(t, job, source, ids)
    decreases |es|
  {
    if es != [] {
      if es[0].Settle? {
        SettlementKeeps(s, es[0], job, source, ids);
      } else {
        EventKeeps(s, es[0], job, source, ids);
      }
      UnderWayKeeps(Import.Step(s, es[0]), es[1..], t, job, source, ids);
    }
  }

  /** Until its end a job is of the source and has the ids it was started with, first and in order. */
  lemma JobKeepsItsIds(j: JobRun, source: string, ids: seq<string>)
    requires Imports(j, source, ids)
    ensures Keeps(j.before, j.job, source, ids)
  {
    BegunKeeps(j, source, ids);
    UnderWayKeeps(Begun(j, source, ids), j.es, j.before, j.job, source, ids);
  }

  // ---------- what the end of a job accounts for ----------

  /** The report of the reply or the event that ends a job. */
  function FinalReport(e: Import.Event): Option<Import.Progress> {
    if e.CompletionReported? then Some(e.progress)
    else if e.Settle? && e.outcome.ProgressIs? then Some(e.outcome.progress)
    else None
  }

  /**
  How many tracks the end of a job accounts for. A report does so by what it lists. A rejection adds no failure
  of its own, so only the tracks known as imported and the failures noted before it count.
  */
  function Accounted(j: JobRun): nat
    requires j.before.run.Some?
  {
    match FinalReport(j.last)
    case Some(report) => |report.imported| + |report.failed|
    case None =>
      Import.CountImported(j.before.tracks, j.before.run.value.source, j.before.active) + |j.before.failures|
  }

  /** Failing the open tracks of a job leaves the number of imported ones as it was. */
  lemma {:induction false} FailureKeepsImported(tracks: Import.Tracks, source: string, ids: seq<string>,
                                                counted: seq<string>)
    ensures Import.CountImported(Import.FailAll(tracks, source, ids), source, counted)
         == Import.CountImported(tracks, source, counted)
    decreases |counted|
  {
    if counted != [] {
      Proofs.FailAllExact(tracks, source, ids, Import.QueueId(source, counted[|counted| - 1]));
      FailureKeepsImported(tracks, source, ids, counted[..|counted| - 1]);
    }
  }

  /** What the confirmation reads off the store once the job is over. */
  predicate IsReportOf(report: Report, t: Import.State) {
    t.run.Some? && report.imported == t.run.value.imported && |report.failures| == |t.failures|
  }

  /** What the store shows after the end of a job: the report's lists, or what was known when everything failed. */
  ghost predicate Shows(s: Import.State, t: Import.State, report: Option<Import.Progress>)
    requires s.run.Some? && t.run.Some?
  {
    match report
    case Some(p) => t.run.value.imported == |p.imported| && t.failures == p.failed
    case None =>
      && t.failures == s.failures
      && t.run.value.imported
         == Import.CountImported(Import.FailAll(s.tracks, s.run.value.source, s.active), s.run.value.source, s.active)
  }

  lemma ChannelShows(s: Import.State, outcome: Import.Outcome, job: Option<Import.JobId>)
    ensures outcome.ProgressIs? && Proofs.Ends(s, Import.ApplyProgress(s, outcome.progress, job)) ==>
              Shows(s, Import.ApplyProgress(s, outcome.progress, job), Some(outcome.progress))
    ensures Proofs.Ends(s, Import.FailImport(s, job)) ==> Shows(s, Import.FailImport(s, job), None)
  {
  }

  lemma EndingShows(s: Import.State, e: Import.Event)
    requires Proofs.JobsRecorded(s) && Import.Possible(s, e) && Proofs.Ends(s, Import.Step(s, e))
    ensures Shows(s, Import.Step(s, e), FinalReport(e))
  {
    if e.Settle? {
      var rest := s.(calls := s.calls - {e.call});
      match s.calls[e.call] {
        case StartCall(job) => ChannelShows(rest, e.outcome, Some(job));
        case ContinueCall(expected) => ChannelShows(rest, e.outcome, expected);
        case CancelRecoveredCall(job) => ChannelShows(rest, e.outcome, Some(job));
        case _ => assert false;
      }
    } else if e.CompletionReported? {
      ChannelShows(s, Import.ProgressIs(e.progress), Some(e.job));
    }
  }

  /** The report of a job counts what the end of the job accounts for. */
  lemma ReportCounts(j: JobRun, report: Report, source: string, ids: seq<string>)
    requires Imports(j, source, ids) && IsReportOf(report, After(j))
    ensures report.imported + |report.failures| == Accounted(j)
  {
    JobKeepsItsIds(j, source, ids);
    EndingShows(j.before, j.last);
    FailureKeepsImported(j.before.tracks, j.before.run.value.source, j.before.active, j.before.active);
  }

  // ---------- what a rejection loses ----------

  /** While the job runs, only tracks of it that are open are reported on, and no decision is asked for. */
  ghost predicate Orderly(s: Import.State, es: seq<Import.Event>)
    decreases |es|
  {
    es != [] ==>
      && Import.Possible(s, es[0]) && IsOrderly(s, es[0]) && Orderly(Import.Step(s, es[0]), es[1..])
  }

  predicate IsOrderly(s: Import.State, e: Import.Event) {
    && (e.TrackChanged? ==> e.remote in s.active && !Import.IsTerminal(s.tracks, Import.QueueId(e.source, e.remote)))
    && (e.Settle? && e.outcome.ProgressIs? ==> e.outcome.progress.status != Import.AwaitingDecision)
  }

  predicate DistinctIds(ids: seq<string>) {
    forall i, j | 0 <= i < j < |ids| :: ids[i] != ids[j]
  }

  predicate IsSkipped(s: Import.State, source: string, remote: string) {
    && Import.IsTerminal(s.tracks, Import.QueueId(source, remote))
    && !Import.IsImported(s.tracks, Import.QueueId(source, remote))
  }

  /** One failure is noted for each skipped track, and for none else. */
  ghost predicate FailuresNoted(s: Import.State, source: string) {
    && |s.failures| == Import.CountSkipped(s.tracks, source, s.active)
    && (forall f <- s.failures :: IsSkipped(s, source, f.remote))
  }

  lemma {:induction false} ForgetNone(failures: seq<Import.Failure>, remote: string)
    requires forall f <- failures :: f.remote != remote
    ensures Import.ForgetFailure(failures, remote) == failures
    decreases |failures|
  {
    if failures != [] {
      ForgetNone(failures[1..], remote);
    }
  }

  lemma SkippedElsewhere(tracks: Import.Tracks, source: string, remote: string, state: Import.TrackState, other: string)
    requires other != remote
    ensures var after := tracks[Import.QueueId(source, remote) := state]; var id := Import.QueueId(source, other);
            && (Import.IsTerminal(after, id) <==> Import.IsTerminal(tracks, id))
            && (Import.IsImported(after, id) <==> Import.IsImported(tracks, id))
  {
  }

  /** A track that leaves the open ones changes the count of skipped ones by itself alone. */
  lemma {:induction false} OneMoreSkipped(tracks: Import.Tracks, source: string, ids: seq<string>, remote: string,
                                          state: Import.TrackState)
    requires DistinctIds(ids) && !Import.IsTerminal(tracks, Import.QueueId(source, remote))
    ensures Import.CountSkipped(tracks[Import.QueueId(source, remote) := state], source, ids)
         == Import.CountSkipped(tracks, source, ids)
            + if remote in ids && Import.Terminal(state) && !state.Imported? then 1 else 0
    decreases |ids|
  {
    if ids != [] {
      var n := |ids| - 1;
      assert ids == ids[..n] + [ids[n]];
      OneMoreSkipped(tracks, source, ids[..n], remote, state);
      if ids[n] == remote {
        assert remote !in ids[..n];
      } else {
        SkippedElsewhere(tracks, source, remote, state, ids[n]);
      }
    }
  }

  lemma TrackKeepsNotes(s: Import.State, e: Import.Event, job: Import.JobId, source: string, ids: seq<string>)
    requires e.TrackChanged? && Keeps(s, job, source, ids) && IsOrderly(s, e)
    requires FailuresNoted(s, source) && DistinctIds(s.active)
    ensures FailuresNoted(Import.Step(s, e), source) && Import.Step(s, e).active == s.active
  {
    var t := Import.Step(s, e);
    if e.source == source && e.job == job {
      OneMoreSkipped(s.tracks, source, s.active, e.remote, e.state);
      ForgetNone(s.failures, e.remote);
      forall f <- t.failures ensures IsSkipped(t, source, f.remote) {
      }
    }
  }

  /** No other event of a job that stays under way touches its tracks or failures, but for a decision asked for. */
  lemma OthersKeepTracks(s: Import.State, e: Import.Event, job: Import.JobId)
    requires IsUnderWay(s, job) && Import.Possible(s, e) && IsUnderWay(Import.Step(s, e), job)
    requires !e.TrackChanged? && IsOrderly(s, e)
    ensures var t := Import.Step(s, e); t.tracks == s.tracks && t.failures == s.failures && t.active == s.active
  {
  }

  lemma {:induction false} OrderlyKeepsNotes(s: Import.State, es: seq<Import.Event>, t: Import.State, job: Import.JobId,
                                             source: string, ids: seq<string>)
    requires Keeps(s, job, source, ids) && UnderWay(s, es, t, job) && Orderly(s, es)
    requires FailuresNoted(s, source) && DistinctIds(s.active)
    ensures FailuresNoted(t, source) && t.active == s.active
    decreases |es|
  {
    if es != [] {
      var e, u := es[0], Import.Step(s, es[0]);
      UnderWayKeeps(s, [e], u, job, source, ids) by {
        assert [e][1..] == [];
      }
      if e.TrackChanged? {
        TrackKeepsNotes(s, e, job, source, ids);
      } else {
        OthersKeepTracks(s, e, job);
      }
      OrderlyKeepsNotes(u, es[1..], t, job, source, ids);
    }
  }

  /** How many of the ids are not at their end. */
  function CountOpen(tracks: Import.Tracks, source: string, ids: seq<string>): nat {
    if ids == [] then 0
    else CountOpen(tracks, source, ids[..|ids| - 1])
         + if Import.IsTerminal(tracks, Import.QueueId(source, ids[|ids| - 1])) then 0 else 1
  }

  lemma {:induction false} EachCountedOnce(tracks: Import.Tracks, source: string, ids: seq<string>)
    ensures Import.CountImported(tracks, source, ids) + Import.CountSkipped(tracks, source, ids)
            + CountOpen(tracks, source, ids) == |ids|
    decreases |ids|
  {
    if ids != [] {
      EachCountedOnce(tracks, source, ids[..|ids| - 1]);
    }
  }

  lemma {:induction false} NoneSkipped(tracks: Import.Tracks, source: string, ids: seq<string>)
    requires forall remote <- ids :: !Import.IsTerminal(tracks, Import.QueueId(source, remote))
    ensures Import.CountSkipped(tracks, source, ids) == 0
    decreases |ids|
  {
    if ids != [] {
      NoneSkipped(tracks, source, ids[..|ids| - 1]);
    }
  }

  /** A rejection loses exactly the tracks of the job that are not at their end by then. */
  lemma RejectionLosesOpenTracks(j: JobRun, source: string, ids: seq<string>)
    requires Imports(j, source, ids) && DistinctIds(ids) && Orderly(Begun(j, source, ids), j.es)
    requires FinalReport(j.last).None?
    ensures Accounted(j) + CountOpen(j.before.tracks, source, ids) == |ids|
  {
    var begun := Begun(j, source, ids);
    BegunKeeps(j, source, ids);
    Proofs.QueuedAreOpen(j.start.tracks, source, ids);
    NoneSkipped(begun.tracks, source, ids);
    OrderlyKeepsNotes(begun, j.es, j.before, j.job, source, ids);
    JobKeepsItsIds(j, source, ids);
    EachCountedOnce(j.before.tracks, source, ids);
  }

  // ---------- the rows of the dialog ----------

  /**
  Each group that was not cancelled was imported by a job of its own; what is counted was
  read off the store at its end.
  */
  ghost predicate Reported(groups: seq<Group>, aborts: Aborts, reports: Reports, jobs: nat -> JobRun) {
    forall k: nat | k < |groups| && !aborts(k) ::
      && Imports(jobs(k), groups[k].source, Remotes(groups[k].items))
      && IsReportOf(reports(k, groups[k].source, Remotes(groups[k].items)), After(jobs(k)))
  }

  /** No job accounts for more tracks than its group has. */
  ghost predicate WithinGroups(groups: seq<Group>, aborts: Aborts, reports: Reports, jobs: nat -> JobRun)
    requires Reported(groups, aborts, reports, jobs)
  {
    forall k: nat | k < |groups| && !aborts(k) :: Accounted(jobs(k)) <= |groups[k].items|
  }

  ghost predicate AllAccounted(groups: seq<Group>, aborts: Aborts, reports: Reports, jobs: nat -> JobRun)
    requires Reported(groups, aborts, reports, jobs)
  {
    forall k: nat | k < |groups| && !aborts(k) :: Accounted(jobs(k)) == |groups[k].items|
  }

  lemma OfFirst(groups: seq<Group>, aborts: Aborts, reports: Reports, jobs: nat -> JobRun)
    requires groups != [] && Reported(groups, aborts, reports, jobs) && WithinGroups(groups, aborts, reports, jobs)
    ensures var k := |groups| - 1; var first := groups[..k];
            && Reported(first, aborts, reports, jobs) && WithinGroups(first, aborts, reports, jobs)
            && (AllAccounted(groups, aborts, reports, jobs) <==>
                  && AllAccounted(first, aborts, reports, jobs)
                  && (aborts(k) || Accounted(jobs(k)) == |groups[k].items|))
  {
    assert forall i: nat | i < |groups| - 1 :: groups[..|groups| - 1][i] == groups[i];
  }

  lemma LastShort(groups: seq<Group>, aborts: Aborts, reports: Reports, jobs: nat -> JobRun)
    requires groups != [] && Reported(groups, aborts, reports, jobs)
    ensures Shortfall(groups, aborts, reports)
         == Shortfall(groups[..|groups| - 1], aborts, reports)
            + if aborts(|groups| - 1) then 0 else |groups[|groups| - 1].items| - Accounted(jobs(|groups| - 1))
  {
    var k := |groups| - 1;
    var ids := Remotes(groups[k].items);
    if !aborts(k) {
      ReportCounts(jobs(k), reports(k, groups[k].source, ids), groups[k].source, ids);
    }
  }

  lemma {:induction false} JobsShort(groups: seq<Group>, aborts: Aborts, reports: Reports, jobs: nat -> JobRun)
    requires Reported(groups, aborts, reports, jobs) && WithinGroups(groups, aborts, reports, jobs)
    ensures Shortfall(groups, aborts, reports) >= 0
    ensures Shortfall(groups, aborts, reports) == 0 <==> AllAccounted(groups, aborts, reports, jobs)
    decreases |groups|
  {
    if groups != [] {
      OfFirst(groups, aborts, reports, jobs);
      JobsShort(groups[..|groups| - 1], aborts, reports, jobs);
      LastShort(groups, aborts, reports, jobs);
    }
  }

  /**
  Rows whose choices are among their options, each group of them imported by a job that was started for its source
  and its ids and accounts for no more tracks than those: every row is counted, as imported or as a failure, exactly
  when the end of each job accounts for all the tracks of its group.
  */
  lemma NoRowIsLostExactlyWhen(rows: seq<Row>, aborts: Aborts, reports: Reports, jobs: nat -> JobRun)
    requires forall row <- rows :: ChoiceListed(row)
    requires Reported(GroupBySource(Chosen(rows)), aborts, reports, jobs)
    requires WithinGroups(GroupBySource(Chosen(rows)), aborts, reports, jobs)
    ensures (var r := Imported(GroupBySource(Chosen(rows)), aborts, reports);
             r.imported + |Skipped(rows) + r.failures| == |rows|)
       <==> AllAccounted(GroupBySource(Chosen(rows)), aborts, reports, jobs)
  {
    ConfirmConserves(rows, aborts, reports);
    NothingDangles(rows);
    JobsShort(GroupBySource(Chosen(rows)), aborts, reports, jobs);
  }
}
