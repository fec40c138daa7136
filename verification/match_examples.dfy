/** Two confirmations in which a row is neither imported nor reported. */
module MatchExamples {
  import opened Basics
  import opened MatchPool
  import opened MatchConfirm
  import opened MatchJobs
  import Import = CatalogImport
  import Proofs = CatalogImportProofs

  /** The row's one option is its choice. */
  predicate Offers(row: Row, candidate: Track) {
    row.options == [candidate] && row.choice == Some(KeyOf(candidate))
  }

  /** The choice names none of the options. */
  predicate NamesNoOption(row: Row) {
    row.choice.Some? && forall option <- row.options :: KeyOf(option) != row.choice.value
  }

  const NEVER: Aborts := k => false
  const NOTHING: Reports := (k, source, ids) => Report(0, [])
  const ONE_SONG: Reports := (k, source, ids) => Report(1, [])

  lemma ChosenOne(row: Row, candidate: Track)
    requires Offers(row, candidate)
    ensures ChosenOf(row) == [Item(row, candidate)] && SkippedOf(row) == [] && ChoiceListed(row)
  {
    assert FindOption([candidate], row.choice) == Some(candidate);
    assert row.options[0] == candidate;
  }

  lemma OfOneRow(row: Row)
    ensures Chosen([row]) == ChosenOf(row) && Skipped([row]) == SkippedOf(row)
  {
    assert [row][..0] == [];
    assert [] + ChosenOf(row) == ChosenOf(row) && [] + SkippedOf(row) == SkippedOf(row);
  }

  lemma OfTwoRows(row: Row, other: Row)
    ensures Chosen([row, other]) == ChosenOf(row) + ChosenOf(other)
    ensures Skipped([row, other]) == SkippedOf(row) + SkippedOf(other)
  {
    assert [row, other][..1] == [row];
    OfOneRow(row);
  }

  lemma GroupOfOne(item: Item)
    ensures GroupBySource([item]) == [Group(item.candidate.source, [item])]
    ensures Remotes([item]) == [item.candidate.remote]
  {
    assert [item][..0] == [];
    assert GroupBySource([item]) == AddItem([], item);
  }

  lemma ReportOfOne(item: Item, reports: Reports)
    ensures Imported([Group(item.candidate.source, [item])], NEVER, reports)
         == reports(0, item.candidate.source, [item.candidate.remote])
  {
    var groups := [Group(item.candidate.source, [item])];
    GroupOfOne(item);
    assert groups[..0] == [];
    var report := reports(0, item.candidate.source, [item.candidate.remote]);
    assert [] + report.failures == report.failures;
  }

  function Always(j: JobRun): nat -> JobRun {
    k => j
  }

  lemma ReportedOne(item: Item, reports: Reports, j: JobRun)
    requires Imports(j, item.candidate.source, [item.candidate.remote])
    requires IsReportOf(reports(0, item.candidate.source, [item.candidate.remote]), After(j))
    ensures Reported([Group(item.candidate.source, [item])], NEVER, reports, Always(j))
  {
    GroupOfOne(item);
  }

  // ---------- the start is rejected ----------

  /** A job of one track, begun in the empty store, whose command is rejected. */
  function RejectedJob(source: string, id: string, job: Import.JobId): JobRun {
    JobRun(Import.INITIAL, job, [], Import.Step(Import.INITIAL, Import.ImportTracks([id], false, source, job)),
           Import.Settle(0, Import.Rejected))
  }

  lemma RejectedJobImports(source: string, id: string, job: Import.JobId)
    ensures var j := RejectedJob(source, id, job);
            Imports(j, source, [id]) && After(j).run.value.imported == 0 && After(j).failures == []
  {
    var j := RejectedJob(source, id, job);
    assert j.before.calls[0] == Import.StartCall(job);
    Proofs.RejectedStartListsNoFailure(Import.INITIAL, [id], source, job);
  }

  /** One row with one option, chosen; its job is refused by the backend. The row is counted nowhere. */
  lemma RejectedStartLosesRow(row: Row, candidate: Track, job: Import.JobId)
    requires Offers(row, candidate)
    ensures var groups := GroupBySource(Chosen([row])); var r := Imported(groups, NEVER, NOTHING);
            && ChoiceListed(row) && Chosen([row]) != []
            && Reported(groups, NEVER, NOTHING, Always(RejectedJob(candidate.source, candidate.remote, job)))
            && r.imported + |Skipped([row]) + r.failures| == 0 < |[row]|
  {
    var item := Item(row, candidate);
    ChosenOne(row, candidate);
    OfOneRow(row);
    GroupOfOne(item);
    ReportOfOne(item, NOTHING);
    RejectedJobImports(candidate.source, candidate.remote, job);
    ReportedOne(item, NOTHING, RejectedJob(candidate.source, candidate.remote, job));
  }

  // ---------- a choice names no option ----------

  /** A job of one track, begun in the empty store, that imports it. */
  function CompletedJob(source: string, id: string, job: Import.JobId, song: string): JobRun {
    JobRun(Import.INITIAL, job, [], Import.Step(Import.INITIAL, Import.ImportTracks([id], false, source, job)),
           Import.CompletionReported(source, job, Import.Progress(source, Import.Completed, [song], [], None)))
  }

  lemma CompletedJobImports(source: string, id: string, job: Import.JobId, song: string)
    ensures var j := CompletedJob(source, id, job, song);
            Imports(j, source, [id]) && After(j).run.value.imported == 1 && After(j).failures == []
  {
  }

  lemma DanglesAlone(row: Row)
    requires NamesNoOption(row)
    ensures ChosenOf(row) == [] && SkippedOf(row) == []
  {
    FindOptionKey(row.options, row.choice);
  }

  /** Of two rows one is imported and the other's choice names none of its options: that one is counted nowhere. */
  lemma UnlistedChoiceLosesRow(row: Row, candidate: Track, other: Row, job: Import.JobId, song: string)
    requires Offers(row, candidate) && NamesNoOption(other)
    ensures var rows := [row, other]; var groups := GroupBySource(Chosen(rows));
            var r := Imported(groups, NEVER, ONE_SONG);
            && Chosen(rows) != []
            && Reported(groups, NEVER, ONE_SONG, Always(CompletedJob(candidate.source, candidate.remote, job, song)))
            && AllAccounted(groups, NEVER, ONE_SONG,
                            Always(CompletedJob(candidate.source, candidate.remote, job, song)))
            && r.imported + |Skipped(rows) + r.failures| == 1 < |rows|
  {
    var item := Item(row, candidate);
    ChosenOne(row, candidate);
    DanglesAlone(other);
    OfTwoRows(row, other);
    GroupOfOne(item);
    ReportOfOne(item, ONE_SONG);
    CompletedJobImports(candidate.source, candidate.remote, job, song);
    ReportedOne(item, ONE_SONG, CompletedJob(candidate.source, candidate.remote, job, song));
  }
}
