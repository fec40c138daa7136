/**
Confirming the found versions: the chosen candidates are remembered, grouped by source and imported one
source at a time, and every row of the dialog must end up counted, either as imported or as a failure.
*/
module MatchConfirm {
  import opened Basics
  import opened MatchPool

  datatype Item = Item(row: Row, candidate: Track)
  datatype Group = Group(source: string, items: seq<Item>)
  datatype Loss = Loss(title: string, artist: string, reason: string)

  /** What the store says of an import job once it is over: its counter and its list of failures. */
  datatype Report = Report(imported: nat, failures: seq<Loss>)

  /** How one confirmation goes: the backend's memory, the abort flag and the jobs' reports, in order. */
  type Memory = (Track, Track) -> bool
  type Aborts = nat -> bool
  type Reports = (nat, string, seq<string>) -> Report

  function FindOption(options: seq<Track>, choice: Option<TrackKey>): Option<Track> {
    if options == [] then None
    else if Some(KeyOf(options[0])) == choice then Some(options[0])
    else FindOption(options[1..], choice)
  }

  function ChosenOf(row: Row): seq<Item> {
    match FindOption(row.options, row.choice)
    case None => []
    case Some(candidate) => [Item(row, candidate)]
  }

  function Chosen(rows: seq<Row>): seq<Item> {
    if rows == [] then [] else Chosen(rows[..|rows| - 1]) + ChosenOf(rows[|rows| - 1])
  }

  function SkippedOf(row: Row): seq<Loss> {
    if row.choice.Some? then []
    else [Loss(row.original.title, row.original.artist, if row.options == [] then "noCandidate" else "skipped")]
  }

  function Skipped(rows: seq<Row>): seq<Loss> {
    if rows == [] then [] else Skipped(rows[..|rows| - 1]) + SkippedOf(rows[|rows| - 1])
  }

  /** Adds an item to its source's group; a new source goes last. */
  function AddItem(groups: seq<Group>, item: Item): seq<Group> {
    if groups == [] then [Group(item.candidate.source, [item])]
    else if groups[0].source == item.candidate.source
    then [Group(groups[0].source, groups[0].items + [item])] + groups[1..]
    else [groups[0]] + AddItem(groups[1..], item)
  }

  function GroupBySource(items: seq<Item>): seq<Group> {
    if items == [] then [] else AddItem(GroupBySource(items[..|items| - 1]), items[|items| - 1])
  }

  function Cancelled(items: seq<Item>): seq<Loss> {
    if items == [] then []
    else Cancelled(items[..|items| - 1])
         + [Loss(items[|items| - 1].row.original.title, items[|items| - 1].row.original.artist, "cancelled")]
  }

  function Remotes(items: seq<Item>): (remotes: seq<string>)
    ensures |remotes| == |items| && forall i | 0 <= i < |items| :: remotes[i] == items[i].candidate.remote
  {
    seq(|items|, i requires 0 <= i < |items| => items[i].candidate.remote)
  }

  /** What the groups up to `k` bring: one report each, or a cancellation of each item once aborted. */
  function Imported(groups: seq<Group>, aborts: Aborts, reports: Reports): Report {
    if groups == [] then Report(0, [])
    else
      var k := |groups| - 1;
      var before := Imported(groups[..k], aborts, reports);
      if aborts(k) then Report(before.imported, before.failures + Cancelled(groups[k].items))
      else
        var report := reports(k, groups[k].source, Remotes(groups[k].items));
        Report(before.imported + report.imported, before.failures + report.failures)
  }

  /** Every new choice can be stored. */
  predicate Remembers(items: seq<Item>, memory: Memory) {
    forall i | 0 <= i < |items| ::
      items[i].row.remembered != items[i].row.choice ==> memory(items[i].row.original, items[i].candidate)
  }

  /** The dialog after the confirmation: still in review, or finished with its totals. */
  datatype Outcome = Unchanged | BackToReview | Confirmed(imported: nat, failures: seq<Loss>)

  method ChooseAndSkip(rows: seq<Row>) returns (chosen: seq<Item>, failures: seq<Loss>)
    ensures chosen == Chosen(rows) && failures == Skipped(rows)
  {
    chosen, failures := [], [];
    for i := 0 to |rows|
      invariant chosen == Chosen(rows[..i]) && failures == Skipped(rows[..i])
    {
      assert rows[..i + 1][..i] == rows[..i];
      chosen := chosen + ChosenOf(rows[i]);
      failures := failures + SkippedOf(rows[i]);
    }
    assert rows[..|rows|] == rows;
  }

  /** Stores the new choices one after the other; the first refusal ends it. */
  method RememberChoices(chosen: seq<Item>, memory: Memory) returns (stored: bool)
    ensures stored == Remembers(chosen, memory)
  {
    for i := 0 to |chosen|
      invariant Remembers(chosen[..i], memory)
    {
      var item := chosen[i];
      if item.row.remembered != item.row.choice && !memory(item.row.original, item.candidate) {
        return false;
      }
    }
    return true;
  }

  method CollectGroups(chosen: seq<Item>) returns (bySource: seq<Group>)
    ensures bySource == GroupBySource(chosen)
  {
    bySource := [];
    for i := 0 to |chosen|
      invariant bySource == GroupBySource(chosen[..i])
    {
      assert chosen[..i + 1][..i] == chosen[..i];
      bySource := AddItem(bySource, chosen[i]);
    }
    assert chosen[..|chosen|] == chosen;
  }

  method ImportGroups(bySource: seq<Group>, aborts: Aborts, reports: Reports) returns (imported: nat, lost: seq<Loss>)
    ensures Report(imported, lost) == Imported(bySource, aborts, reports)
  {
    imported, lost := 0, [];
    for k := 0 to |bySource|
      invariant Report(imported, lost) == Imported(bySource[..k], aborts, reports)
    {
      assert bySource[..k + 1][..k] == bySource[..k];
      if aborts(k) {
        lost := lost + Cancelled(bySource[k].items);
      } else {
        var report := reports(k, bySource[k].source, Remotes(bySource[k].items));
        imported, lost := imported + report.imported, lost + report.failures;
      }
    }
    assert bySource[..|bySource|] == bySource;
  }

  method ConfirmMatches(rows: seq<Row>, memory: Memory, aborts: Aborts, reports: Reports) returns (outcome: Outcome)
    ensures outcome.Unchanged? <==> Chosen(rows) == []
    ensures outcome.BackToReview? <==> Chosen(rows) != [] && !Remembers(Chosen(rows), memory)
    ensures outcome.Confirmed? ==>
              var report := Imported(GroupBySource(Chosen(rows)), aborts, reports);
              outcome == Confirmed(report.imported, Skipped(rows) + report.failures)
  {
    var chosen, failures := ChooseAndSkip(rows);
    if chosen == [] {
      return Unchanged;
    }
    var stored := RememberChoices(chosen, memory);
    if !stored {
      return BackToReview;
    }
    var bySource := CollectGroups(chosen);
    var imported, lost := ImportGroups(bySource, aborts, reports);
    outcome := Confirmed(imported, failures + lost);
  }

  // ---------- what each row brings ----------

  /** The first of the row's options that is the one chosen. */
  predicate IsChosen(row: Row, k: nat) {
    && k < |row.options| && row.choice == Some(TrackKey(row.options[k].source, row.options[k].remote))
    && (forall j | 0 <= j < k ::
          row.choice != Some(TrackKey(row.options[j].source, row.options[j].remote)))
  }

  lemma {:induction false} FoundIsFirst(options: seq<Track>, choice: Option<TrackKey>, k: nat)
    requires k < |options| && choice == Some(KeyOf(options[k]))
    requires forall j | 0 <= j < k :: choice != Some(KeyOf(options[j]))
    ensures FindOption(options, choice) == Some(options[k])
    decreases |options|
  {
    if k > 0 {
      FoundIsFirst(options[1..], choice, k - 1);
    }
  }

  /**
  A row with a listed choice brings that option; a row without a choice is a failure, for want of a candidate or
  because it was skipped; a row whose choice is not listed brings neither.
  */
  lemma RowBrings(row: Row)
    ensures forall k: nat | IsChosen(row, k) :: Chosen([row]) == [Item(row, row.options[k])] && Skipped([row]) == []
    ensures row.choice.None? ==>
              && Chosen([row]) == []
              && Skipped([row]) == [Loss(row.original.title, row.original.artist,
                                         if row.options == [] then "noCandidate" else "skipped")]
    ensures row.choice.Some? && (forall k: nat :: !IsChosen(row, k)) ==> Chosen([row]) == [] && Skipped([row]) == []
  {
    ChosenAppend([], row);
    SkippedAppend([], row);
    assert [] + [row] == [row];
    FindOptionKey(row.options, row.choice);
    forall k: nat | IsChosen(row, k) ensures FindOption(row.options, row.choice) == Some(row.options[k]) {
      FoundIsFirst(row.options, row.choice, k);
    }
    if row.choice.Some? && FindOption(row.options, row.choice).Some? {
      var k := FirstChosen(row);
    }
  }

  lemma FirstChosen(row: Row) returns (k: nat)
    requires exists option <- row.options :: Some(KeyOf(option)) == row.choice
    ensures IsChosen(row, k)
  {
    k := 0;
    while Some(KeyOf(row.options[k])) != row.choice
      invariant k < |row.options| && forall j | 0 <= j < k :: Some(KeyOf(row.options[j])) != row.choice
      decreases |row.options| - k
    {
      k := k + 1;
    }
  }

  lemma ChosenAppend(rows: seq<Row>, row: Row)
    ensures Chosen(rows + [row]) == Chosen(rows) + ChosenOf(row)
  {
    assert (rows + [row])[..|rows|] == rows;
  }

  lemma SkippedAppend(rows: seq<Row>, row: Row)
    ensures Skipped(rows + [row]) == Skipped(rows) + SkippedOf(row)
  {
    assert (rows + [row])[..|rows|] == rows;
  }

  lemma {:induction false} ChosenTogether(rows: seq<Row>, more: seq<Row>)
    ensures Chosen(rows + more) == Chosen(rows) + Chosen(more)
    decreases |more|
  {
    if more == [] {
      assert rows + more == rows;
    } else {
      var rest, last := more[..|more| - 1], more[|more| - 1];
      calc {
        Chosen(rows + more);
        { assert rows + more == rows + rest + [last]; ChosenAppend(rows + rest, last); }
        Chosen(rows + rest) + ChosenOf(last);
        { ChosenTogether(rows, rest); }
        Chosen(rows) + Chosen(rest) + ChosenOf(last);
        { ChosenAppend(rest, last); assert rest + [last] == more; }
        Chosen(rows) + Chosen(more);
      }
    }
  }

  lemma {:induction false} SkippedTogether(rows: seq<Row>, more: seq<Row>)
    ensures Skipped(rows + more) == Skipped(rows) + Skipped(more)
    decreases |more|
  {
    if more == [] {
      assert rows + more == rows;
    } else {
      var rest, last := more[..|more| - 1], more[|more| - 1];
      calc {
        Skipped(rows + more);
        { assert rows + more == rows + rest + [last]; SkippedAppend(rows + rest, last); }
        Skipped(rows + rest) + SkippedOf(last);
        { SkippedTogether(rows, rest); }
        Skipped(rows) + Skipped(rest) + SkippedOf(last);
        { SkippedAppend(rest, last); assert rest + [last] == more; }
        Skipped(rows) + Skipped(more);
      }
    }
  }

  /** What the rows bring is what each brings, one after the other. */
  lemma RowsBring(rows: seq<Row>, more: seq<Row>)
    ensures Chosen(rows + more) == Chosen(rows) + Chosen(more)
    ensures Skipped(rows + more) == Skipped(rows) + Skipped(more)
  {
    ChosenTogether(rows, more);
    SkippedTogether(rows, more);
  }

  lemma {:induction false} CancelledAre(items: seq<Item>)
    ensures |Cancelled(items)| == |items|
    ensures forall i | 0 <= i < |items| ::
              Cancelled(items)[i] == Loss(items[i].row.original.title, items[i].row.original.artist, "cancelled")
    decreases |items|
  {
    if items != [] {
      CancelledAre(items[..|items| - 1]);
    }
  }

  /** The failure comes from this group: its import reported it, or it was not begun any more. */
  ghost predicate LostIn(groups: seq<Group>, aborts: Aborts, reports: Reports, k: nat, loss: Loss)
    requires k < |groups|
  {
    if aborts(k)
    then exists item <- groups[k].items ::
           loss == Loss(item.row.original.title, item.row.original.artist, "cancelled")
    else loss in reports(k, groups[k].source, Remotes(groups[k].items)).failures
  }

  /** The failures are those of the groups, and no others. */
  lemma {:induction false} LossesAre(groups: seq<Group>, aborts: Aborts, reports: Reports, loss: Loss)
    ensures loss in Imported(groups, aborts, reports).failures
       <==> exists k: nat :: k < |groups| && LostIn(groups, aborts, reports, k, loss)
    decreases |groups|
  {
    if groups != [] {
      var n := |groups| - 1;
      LossesAre(groups[..n], aborts, reports, loss);
      CancelledAre(groups[n].items);
      assert loss in Cancelled(groups[n].items) <==>
        exists i :: 0 <= i < |groups[n].items| && Cancelled(groups[n].items)[i] == loss;
      forall k: nat | k < n
        ensures LostIn(groups[..n], aborts, reports, k, loss) <==> LostIn(groups, aborts, reports, k, loss)
      {
      }
      if LostIn(groups, aborts, reports, n, loss) && aborts(n) {
        var item :| item in groups[n].items
                    && loss == Loss(item.row.original.title, item.row.original.artist, "cancelled");
        var i :| 0 <= i < |groups[n].items| && groups[n].items[i] == item;
        assert Cancelled(groups[n].items)[i] == loss;
      }
    }
  }

  // ---------- no row is lost ----------

  /** A choice that is not among the row's options: neither imported nor reported. */
  predicate Dangles(row: Row) {
    row.choice.Some? && FindOption(row.options, row.choice).None?
  }

  function Dangling(rows: seq<Row>): nat {
    if rows == [] then 0
    else Dangling(rows[..|rows| - 1]) + if Dangles(rows[|rows| - 1]) then 1 else 0
  }

  lemma FindOptionKey(options: seq<Track>, choice: Option<TrackKey>)
    ensures FindOption(options, choice).Some? <==> exists option <- options :: Some(KeyOf(option)) == choice
    ensures FindOption(options, choice).Some? ==> Some(KeyOf(FindOption(options, choice).value)) == choice
  {
    if options != [] {
      FindOptionKey(options[1..], choice);
      assert options == [options[0]] + options[1..];
    }
  }

  /** Each row is chosen, skipped or dangling, and only one of them. */
  lemma {:induction false} RowsSplit(rows: seq<Row>)
    ensures |Chosen(rows)| + |Skipped(rows)| + Dangling(rows) == |rows|
    decreases |rows|
  {
    if rows != [] {
      var row := rows[|rows| - 1];
      RowsSplit(rows[..|rows| - 1]);
      FindOptionKey(row.options, row.choice);
    }
  }

  /** All the items of the groups, group after group. */
  function Items(groups: seq<Group>): seq<Item> {
    if groups == [] then [] else groups[0].items + Items(groups[1..])
  }

  lemma ItemsOfFirst(groups: seq<Group>)
    requires groups != []
    ensures multiset(Items(groups)) == multiset(groups[0].items) + multiset(Items(groups[1..]))
  {
  }

  lemma {:induction false} AddItemItems(groups: seq<Group>, item: Item)
    ensures multiset(Items(AddItem(groups, item))) == multiset(Items(groups)) + multiset{item}
    decreases |groups|
  {
    var added := AddItem(groups, item);
    ItemsOfFirst(added);
    if groups == [] {
      assert added[1..] == [];
    } else {
      ItemsOfFirst(groups);
      if groups[0].source == item.candidate.source {
        assert added[1..] == groups[1..];
        assert multiset(groups[0].items + [item]) == multiset(groups[0].items) + multiset{item};
      } else {
        AddItemItems(groups[1..], item);
        assert added[1..] == AddItem(groups[1..], item);
      }
    }
  }

  lemma AllButLast(items: seq<Item>)
    requires items != []
    ensures multiset(items) == multiset(items[..|items| - 1]) + multiset{items[|items| - 1]}
  {
    assert items == items[..|items| - 1] + [items[|items| - 1]];
  }

  /** Grouping neither loses nor doubles an item. */
  lemma {:induction false} GroupingKeepsItems(items: seq<Item>)
    ensures multiset(Items(GroupBySource(items))) == multiset(items)
    decreases |items|
  {
    if items != [] {
      var n := |items| - 1;
      GroupingKeepsItems(items[..n]);
      AddItemItems(GroupBySource(items[..n]), items[n]);
      AllButLast(items);
    }
  }

  lemma {:induction false} ItemsBack(groups: seq<Group>)
    requires groups != []
    ensures |Items(groups)| == |Items(groups[..|groups| - 1])| + |groups[|groups| - 1].items|
    decreases |groups|
  {
    var n := |groups| - 1;
    if n == 0 {
      assert groups[..0] == [] && groups[1..] == [];
    } else {
      ItemsBack(groups[1..]);
      assert groups[1..][..n - 1] == groups[..n][1..];
      assert groups[1..][n - 1] == groups[n];
    }
  }

  /** Each source has one group, which holds only its own candidates. */
  lemma {:induction false} AddItemSources(groups: seq<Group>, item: Item)
    requires forall g <- groups :: g.items != [] && forall x <- g.items :: x.candidate.source == g.source
    requires forall i, j | 0 <= i < j < |groups| :: groups[i].source != groups[j].source
    ensures var added := AddItem(groups, item);
            && (forall g <- added :: g.items != [] && forall x <- g.items :: x.candidate.source == g.source)
            && (forall i, j | 0 <= i < j < |added| :: added[i].source != added[j].source)
            && (forall g <- added :: g.source == item.candidate.source || exists h <- groups :: h.source == g.source)
    decreases |groups|
  {
    if groups != [] {
      AddItemSources(groups[1..], item);
      var rest := AddItem(groups[1..], item);
      var added := AddItem(groups, item);
      if groups[0].source == item.candidate.source {
        forall g <- added ensures exists h <- groups :: h.source == g.source {
          if g in groups[1..] {
            assert g in groups;
          } else {
            assert groups[0] in groups;
          }
        }
      } else {
        forall g <- rest ensures g.source != groups[0].source {
          if g.source != item.candidate.source {
            var h :| h in groups[1..] && h.source == g.source;
            assert h in groups;
          }
        }
        assert added == [groups[0]] + rest;
        forall g <- added ensures g.source == item.candidate.source || exists h <- groups :: h.source == g.source {
          if g in rest && g.source != item.candidate.source {
            var h :| h in groups[1..] && h.source == g.source;
            assert h in groups;
          } else if g !in rest {
            assert g == groups[0] && groups[0] in groups;
          }
        }
      }
    }
  }

  /** The items whose candidate is of the source, in their order. */
  function OfSource(items: seq<Item>, source: string): seq<Item> {
    if items == [] then []
    else OfSource(items[..|items| - 1], source)
         + if items[|items| - 1].candidate.source == source then [items[|items| - 1]] else []
  }

  /** What the groups hold for a source. */
  function ItemsFor(groups: seq<Group>, source: string): seq<Item> {
    if groups == [] then []
    else if groups[0].source == source then groups[0].items
    else ItemsFor(groups[1..], source)
  }

  lemma {:induction false} AddItemFor(groups: seq<Group>, item: Item, source: string)
    ensures ItemsFor(AddItem(groups, item), source)
         == ItemsFor(groups, source) + if item.candidate.source == source then [item] else []
    decreases |groups|
  {
    if groups != [] {
      AddItemFor(groups[1..], item, source);
      assert AddItem(groups, item)[1..]
          == if groups[0].source == item.candidate.source then groups[1..] else AddItem(groups[1..], item);
    }
  }

  lemma {:induction false} GroupsFor(items: seq<Item>, source: string)
    ensures ItemsFor(GroupBySource(items), source) == OfSource(items, source)
    decreases |items|
  {
    if items != [] {
      GroupsFor(items[..|items| - 1], source);
      AddItemFor(GroupBySource(items[..|items| - 1]), items[|items| - 1], source);
    }
  }

  lemma {:induction false} GroupHolds(groups: seq<Group>, k: nat)
    requires k < |groups| && forall i, j | 0 <= i < j < |groups| :: groups[i].source != groups[j].source
    ensures ItemsFor(groups, groups[k].source) == groups[k].items
    decreases k
  {
    if k > 0 {
      GroupHolds(groups[1..], k - 1);
    }
  }

  lemma {:induction false} GroupSources(items: seq<Item>)
    ensures var groups := GroupBySource(items);
            && (forall g <- groups :: g.items != [] && forall x <- g.items :: x.candidate.source == g.source)
            && (forall i, j | 0 <= i < j < |groups| :: groups[i].source != groups[j].source)
    decreases |items|
  {
    if items != [] {
      GroupSources(items[..|items| - 1]);
      AddItemSources(GroupBySource(items[..|items| - 1]), items[|items| - 1]);
    }
  }

  /** Each source has one group, which is not empty and holds all its items in the order they were chosen. */
  lemma GroupsAreBySource(items: seq<Item>)
    ensures var groups := GroupBySource(items);
            && (forall i, j | 0 <= i < j < |groups| :: groups[i].source != groups[j].source)
            && (forall k | 0 <= k < |groups| :: groups[k].items == OfSource(items, groups[k].source) != [])
  {
    GroupSources(items);
    var groups := GroupBySource(items);
    forall k | 0 <= k < |groups| ensures groups[k].items == OfSource(items, groups[k].source) != [] {
      GroupHolds(groups, k);
      GroupsFor(items, groups[k].source);
      assert groups[k] in groups;
    }
  }

  /** By how much the reports of the jobs that ran fall short of the ids they were sent. */
  function Shortfall(groups: seq<Group>, aborts: Aborts, reports: Reports): int {
    if groups == [] then 0
    else
      var k := |groups| - 1;
      var report := reports(k, groups[k].source, Remotes(groups[k].items));
      Shortfall(groups[..k], aborts, reports)
        + if aborts(k) then 0 else |groups[k].items| - report.imported - |report.failures|
  }

  lemma {:induction false} CancelledSize(items: seq<Item>)
    ensures |Cancelled(items)| == |items|
    decreases |items|
  {
    if items != [] {
      CancelledSize(items[..|items| - 1]);
    }
  }

  lemma {:induction false} ImportedSize(groups: seq<Group>, aborts: Aborts, reports: Reports)
    ensures var r := Imported(groups, aborts, reports);
            r.imported + |r.failures| + Shortfall(groups, aborts, reports) == |Items(groups)|
    decreases |groups|
  {
    if groups != [] {
      var k := |groups| - 1;
      ImportedSize(groups[..k], aborts, reports);
      CancelledSize(groups[k].items);
      ItemsBack(groups);
    }
  }

  /**
  However the rows were chosen, however they group and wherever the run is aborted, what is imported and
  what has failed add up to the rows, short only of dangling choices and of what the jobs leave unreported.
  */
  lemma ConfirmConserves(rows: seq<Row>, aborts: Aborts, reports: Reports)
    ensures var groups := GroupBySource(Chosen(rows));
            var r := Imported(groups, aborts, reports);
            r.imported + |Skipped(rows) + r.failures| + Dangling(rows) + Shortfall(groups, aborts, reports) == |rows|
  {
    RowsSplit(rows);
    GroupingKeepsItems(Chosen(rows));
    assert |Items(GroupBySource(Chosen(rows)))| == |multiset(Items(GroupBySource(Chosen(rows))))|;
    ImportedSize(GroupBySource(Chosen(rows)), aborts, reports);
  }

  lemma {:induction false} NothingDangles(rows: seq<Row>)
    requires forall row <- rows :: ChoiceListed(row)
    ensures Dangling(rows) == 0
    decreases |rows|
  {
    if rows != [] {
      var row := rows[|rows| - 1];
      assert row in rows && ChoiceListed(row);
      FindOptionKey(row.options, row.choice);
      NothingDangles(rows[..|rows| - 1]);
    }
  }

  lemma {:induction false} NothingShort(groups: seq<Group>, aborts: Aborts, reports: Reports)
    requires forall k: nat, source, ids ::
      reports(k, source, ids).imported + |reports(k, source, ids).failures| == |ids|
    ensures Shortfall(groups, aborts, reports) == 0
    decreases |groups|
  {
    if groups != [] {
      NothingShort(groups[..|groups| - 1], aborts, reports);
      assert |Remotes(groups[|groups| - 1].items)| == |groups[|groups| - 1].items|;
    }
  }

  /** With choices from the options, as a concluded pool leaves them, and complete reports, no row is lost. */
  lemma NoRowIsLost(rows: seq<Row>, aborts: Aborts, reports: Reports)
    requires forall row <- rows :: ChoiceListed(row)
    requires forall k: nat, source, ids ::
      reports(k, source, ids).imported + |reports(k, source, ids).failures| == |ids|
    ensures var r := Imported(GroupBySource(Chosen(rows)), aborts, reports);
            r.imported + |Skipped(rows) + r.failures| == |rows|
  {
    ConfirmConserves(rows, aborts, reports);
    NothingDangles(rows);
    NothingShort(GroupBySource(Chosen(rows)), aborts, reports);
  }
}
