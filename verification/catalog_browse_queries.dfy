/** Whose results the search list of a source holds: they are of one query unless a search for more names another. */
module CatalogBrowseQueries {
  import opened Basics
  import opened CatalogBrowse
  import opened CatalogBrowseProofs
  import opened CatalogBrowseRuns
  import opened CatalogBrowseServer

  /** What a caller can look at before asking for more: the query is the one shown. */
  predicate Continues(s: State, e: Event) {
    e.RunSearch? && e.more ==> Trim(e.query) in {"", RecordOf(s, ActiveId(s)).searchQuery}
  }

  ghost predicate OneQuery(b: Browse) {
    OfFeed(b.search, Search(b.searchQuery))
  }

  ghost predicate QueriesOk(s: State) {
    forall id :: OneQuery(RecordOf(s, id))
  }

  /** No list of results changes but by being emptied, and no query changes but with its list. */
  ghost predicate SearchesKept(s: State, t: State) {
    forall id :: SearchKept(RecordOf(s, id), RecordOf(t, id))
  }

  predicate SearchKept(b: Browse, c: Browse) {
    c.search == NO_LISTING || (c.search == b.search && c.searchQuery == b.searchQuery)
  }

  lemma KeptOk(s: State, t: State)
    requires QueriesOk(s) && SearchesKept(s, t)
    ensures QueriesOk(t)
  {
    forall id ensures OneQuery(RecordOf(t, id)) {
      assert OneQuery(RecordOf(s, id)) && SearchKept(RecordOf(s, id), RecordOf(t, id));
    }
  }

  lemma KeptThrough(s: State, t: State, u: State)
    requires SearchesKept(s, t) && SearchesKept(t, u)
    ensures SearchesKept(s, u)
  {
    forall id ensures SearchKept(RecordOf(s, id), RecordOf(u, id)) {
      assert SearchKept(RecordOf(s, id), RecordOf(t, id)) && SearchKept(RecordOf(t, id), RecordOf(u, id));
    }
  }

  lemma PatchKept(s: State, id: Source, b: Browse)
    requires SearchKept(RecordOf(s, id), b)
    ensures SearchesKept(s, Patch(s, id, b))
  {
  }

  lemma SameRecordsKept(s: State, t: State)
    requires s.records == t.records
    ensures SearchesKept(s, t)
  {
  }

  lemma ResetKept(s: State, id: Source, b: Browse)
    requires b.search == NO_LISTING
    ensures SearchesKept(s, Reset(s, id, b))
  {
  }

  lemma FailKept(s: State, id: Source, slot: string, error: Error)
    ensures SearchesKept(s, Fail(s, id, slot, error))
  {
  }

  lemma FailAfterKept(s: State, id: Source, b: Browse, slot: string, error: Error)
    requires SearchKept(RecordOf(s, id), b)
    ensures SearchesKept(s, Fail(Patch(s, id, b), id, slot, error))
  {
    PatchKept(s, id, b);
    FailKept(Patch(s, id, b), id, slot, error);
    KeptThrough(s, Patch(s, id, b), Fail(Patch(s, id, b), id, slot, error));
  }

  lemma StartsKept(s: State, ids: seq<Source>, query: string)
    ensures AddStarts(s, ids, query).records == s.records
    decreases |ids|
  {
    if ids != [] {
      StartsKept(AddCall(s, SectionStart(ids[0], query)), ids[1..], query);
    }
  }

  lemma SetSectionKept(s: State, id: Source, query: string, section: SectionState)
    ensures SetSection(s, id, query, section).records == s.records
  {
  }

  lemma SectionKept(s: State, id: Source, query: string, cursor: Option<string>)
    ensures SearchSectionStep(s, id, query, cursor).records == s.records
  {
    SetSectionKept(s, id, query, SectionOf(s, id).(status := SignedOut));
    SetSectionKept(Bump(s, Key(id, OnSection)), id, query, SectionOf(s, id).(status := Loading));
  }

  lemma SendKept(s: State, id: Source, feed: Feed, more: bool, before: Listing, cursor: Option<string>, b: Browse)
    requires SearchKept(RecordOf(s, id), b)
    ensures SearchesKept(s, SendPage(s, id, feed, more, before, cursor, b))
  {
  }

  lemma LikedKept(s: State, more: bool)
    ensures SearchesKept(s, LoadLikedStep(s, more))
  {
    var id := ActiveId(s);
    var was := RecordOf(s, id);
    SendKept(s, id, Liked, more, was.liked, if more then was.liked.cursor else None,
             was.(likedStatus := Loading, likedLoadingMore := more));
  }

  lemma PlaylistKept(s: State, remote: Remote, more: bool)
    ensures SearchesKept(s, OpenPlaylistStep(s, remote, more))
  {
    var id := ActiveId(s);
    var was := RecordOf(s, id);
    var before := if remote in was.details then was.details[remote] else NO_LISTING;
    PatchKept(s, id, Shown(was, remote, more));
    SendKept(s, id, Playlist(remote), more, before, if more then before.cursor else None, Shown(was, remote, more));
  }

  lemma EverywhereKept(s: State, query: string)
    ensures SearchesKept(s, SearchEverywhereStep(s, query))
  {
    var ids := Candidates(s.sources);
    var shown := s.(view := SearchView, active := None, top := EMPTY_BROWSE,
                    global := GlobalSearch(Trim(query), map id | id in ids :: SectionState(Loading, NO_LISTING)));
    StartsKept(shown, ids, Trim(query));
    SameRecordsKept(s, AddStarts(shown, ids, Trim(query)));
    SameRecordsKept(s, s);
  }

  lemma CancelKept(s: State, id: Source, thenOpen: bool)
    ensures SearchesKept(s, CancelSignInStep(s, id, thenOpen))
  {
    var cleared := ClearTimer(Bump(s, Key(id, OnAuth)), id);
    assert cleared.records == s.records;
    PatchKept(cleared, id, RecordOf(s, id).(authStatus := Idle));
  }

  lemma AcceptKept(s: State, id: Source, session: Session)
    ensures SearchesKept(s, AcceptSignInStep(s, id, session))
  {
    ResetKept(s, id, EMPTY_BROWSE.(session := Some(session), sessionStatus := Ready));
    SameRecordsKept(s, s);
  }

  lemma SignInErrorKept(s: State, id: Source, challenge: Challenge, message: string)
    ensures SearchesKept(s, SetSignInErrorStep(s, id, challenge, message))
  {
    var b := RecordOf(s, id).(signInError := Some(message), challenge := None, authStatus := Errored);
    var cleared := ForgetTimer(Bump(s, Key(id, OnAuth)), id);
    assert cleared.records == s.records;
    PatchKept(cleared, id, b);
    SameRecordsKept(s, s);
  }

  lemma ApplyKept(s: State, source: SourceInfo)
    ensures SearchesKept(s, ApplySourceStep(s, source))
  {
    ResetKept(s, source.id, EMPTY_BROWSE);
    var t := ApplySourceStep(s, source);
    if t.records != s.records {
      SameRecordsKept(Reset(s, source.id, EMPTY_BROWSE), t);
      KeptThrough(s, Reset(s, source.id, EMPTY_BROWSE), t);
    } else {
      SameRecordsKept(s, t);
    }
  }

  lemma CloseKept(s: State)
    ensures SearchesKept(s, ClosePlaylistStep(s))
  {
    PatchKept(s, ActiveId(s), RecordOf(s, ActiveId(s)).(detail := None, selected := None, detailStatus := Idle));
  }

  lemma ClearKept(s: State)
    ensures SearchesKept(s, ClearSearchStep(s))
  {
    PatchKept(Bump(s, Key(ActiveId(s), OnSearch)), ActiveId(s),
              RecordOf(s, ActiveId(s)).(searchQuery := "", search := NO_LISTING, searchStatus := Idle));
  }

  lemma MoreKept(s: State, id: Source)
    ensures SearchesKept(s, SearchMoreInStep(s, id))
  {
    if id in s.global.sections {
      SectionKept(s, id, s.global.query, s.global.sections[id].listing.cursor);
    }
    SameRecordsKept(s, SearchMoreInStep(s, id));
  }

  lemma LoadSessionKept(s: State, id: Source, thenSearch: Option<string>)
    ensures SearchesKept(s, LoadSessionStep(s, id, thenSearch))
  {
    PatchKept(Bump(s, Key(id, OnSession)), id, RecordOf(s, id).(sessionStatus := Loading));
  }

  lemma ListActionKept(s: State, e: Event)
    requires e.LoadLiked? || e.OpenPlaylist? || e.ClosePlaylist? || e.ClearSearch? || e.SearchEverywhere?
             || e.SearchMoreIn?
    ensures SearchesKept(s, Step(s, e))
  {
    match e {
      case LoadLiked(more) => LikedKept(s, more);
      case OpenPlaylist(remote, more) => PlaylistKept(s, remote, more);
      case ClosePlaylist => CloseKept(s);
      case ClearSearch => ClearKept(s);
      case SearchEverywhere(query) => EverywhereKept(s, query);
      case SearchMoreIn(id) => MoreKept(s, id);
    }
  }

  lemma ViewActionKept(s: State, e: Event)
    requires e.SignOut? || e.ShowLibrary? || e.ShowSource?
    ensures SearchesKept(s, Step(s, e))
  {
    SameRecordsKept(s, Step(s, e));
  }

  /** Every action but a search. */
  lemma ActionKept(s: State, e: Event)
    requires !e.Settle? && !e.RunSearch?
    ensures SearchesKept(s, Step(s, e))
  {
    if e.ApplySource? {
      ApplyKept(s, e.source);
    } else if e.SignOut? || e.ShowLibrary? || e.ShowSource? {
      ViewActionKept(s, e);
    } else if e.LoadSession? {
      LoadSessionKept(s, e.id, None);
    } else if e.AcceptSignIn? {
      AcceptKept(s, e.id, e.session);
    } else if e.OpenSignIn? || e.CancelSignIn? {
      CancelKept(s, e.id, e.OpenSignIn?);
    } else if e.SetSignInError? {
      SignInErrorKept(s, e.id, e.challenge, e.message);
    } else {
      ListActionKept(s, e);
    }
  }

  lemma SessionKept(s: State, call: Call, outcome: Outcome)
    requires call.SessionCall? && Fits(call, outcome)
    ensures SearchesKept(s, SettleSession(s, call, outcome))
  {
    var was := RecordOf(s, call.id);
    SameRecordsKept(s, s);
    match outcome {
      case SessionIs(session) => PatchKept(s, call.id, was.(session := Some(session), sessionStatus := Ready));
      case Rejected(error) => FailAfterKept(s, call.id, was.(sessionStatus := Errored), "session", error);
    }
  }

  lemma CancelSettledKept(s: State, call: Call, outcome: Outcome)
    requires call.CancelCall? && Fits(call, outcome)
    ensures SearchesKept(s, SettleCancel(s, call, outcome))
  {
    SameRecordsKept(s, s);
    match outcome {
      case Done => PatchKept(s, call.id, RecordOf(s, call.id).(challenge := None, authStatus := Idle));
      case Rejected(error) => FailKept(s, call.id, "auth", error);
    }
  }

  lemma OpenKept(s: State, call: Call, outcome: Outcome)
    requires call.OpenCall? && Fits(call, outcome)
    ensures SearchesKept(s, SettleOpen(s, call, outcome))
  {
    var was := RecordOf(s, call.id);
    match outcome {
      case ChallengeIs(challenge) =>
        PatchKept(s, call.id, was.(challenge := Some(challenge), authStatus := Ready));
        SameRecordsKept(s, AddCall(s, LateCancelCall(call.id, challenge)));
      case Rejected(error) =>
        SameRecordsKept(s, s);
        FailAfterKept(s, call.id, was.(authStatus := Errored), "auth", error);
    }
  }

  lemma PollKept(s: State, call: Call, outcome: Outcome)
    requires call.PollCall? && Fits(call, outcome)
    ensures SearchesKept(s, SettlePoll(s, call, outcome))
  {
    var was := RecordOf(s, call.id);
    SameRecordsKept(s, s);
    match outcome {
      case PollIs(Complete(Some(session))) => AcceptKept(s, call.id, session);
      case PollIs(Complete(None)) =>
        PatchKept(s, call.id, was.(challenge := None, errors := was.errors["auth" := "complete"]));
      case PollIs(Pending) => SameRecordsKept(s, Arm(s, call.id, call.challenge, call.token));
      case PollIs(Other(state)) =>
        PatchKept(s, call.id, was.(challenge := None, errors := was.errors["auth" := state]));
      case Rejected(error) => FailAfterKept(s, call.id, was.(challenge := None, authStatus := Idle), "auth", error);
    }
  }

  lemma SignOutKept(s: State, id: Source, outcome: Outcome)
    ensures SearchesKept(s, SettleSignOut(s, id, outcome))
  {
    match outcome {
      case SessionIs(session) => ResetKept(s, id, EMPTY_BROWSE.(session := Some(session), sessionStatus := Ready));
      case Rejected(error) => FailKept(s, id, "auth", error);
      case _ => SameRecordsKept(s, s);
    }
  }

  lemma StartKept(s: State, id: Source, query: string)
    ensures SearchesKept(s, SettleSectionStart(s, id, query))
  {
    SectionKept(s, id, query, None);
    SameRecordsKept(s, SearchSectionStep(s, id, query, None));
    LoadSessionKept(s, id, Some(query));
  }

  /** Every settlement but that of a page. */
  lemma SettlementKept(s: State, k: nat, outcome: Outcome)
    requires k in s.calls && Fits(s.calls[k], outcome) && !s.calls[k].PageCall?
    ensures SearchesKept(DropCall(s, k), SettleStep(s, k, outcome))
  {
    var rest := DropCall(s, k);
    match s.calls[k] {
      case SessionCall(_, _, _) => SessionKept(rest, s.calls[k], outcome);
      case SectionStart(id, query) => StartKept(rest, id, query);
      case CancelCall(_, _, _, _) => CancelSettledKept(rest, s.calls[k], outcome);
      case OpenAfterCancel(id) => OpenAgainKept(rest, id);
      case OpenCall(_, _) => OpenKept(rest, s.calls[k], outcome);
      case LateCancelCall(_, _) => SameRecordsKept(rest, rest);
      case PollTimer(_, _, _) => SameRecordsKept(rest, SettleTimer(rest, s.calls[k]));
      case PollCall(_, _, _) => PollKept(rest, s.calls[k], outcome);
      case SignOutCall(id) => SignOutKept(rest, id, outcome);
    }
  }

  lemma OpenAgainKept(s: State, id: Source)
    ensures SearchesKept(s, SettleOpenAfterCancel(s, id))
  {
    var was := RecordOf(s, id);
    SameRecordsKept(s, s);
    PatchKept(Bump(s, Key(id, OnAuth)), id,
              was.(authStatus := Loading, signInError := None, errors := was.errors - {"auth"}));
  }

  lemma SectionRefusedKept(s: State, id: Source, query: string, error: Error)
    ensures var shown := SetSection(s, id, query, SectionOf(s, id).(status := Errored));
            SearchesKept(s, Fail(shown, id, "search", error))
  {
    var shown := SetSection(s, id, query, SectionOf(s, id).(status := Errored));
    SetSectionKept(s, id, query, SectionOf(s, id).(status := Errored));
    SameRecordsKept(s, shown);
    FailKept(shown, id, "search", error);
    KeptThrough(s, shown, Fail(shown, id, "search", error));
  }

  lemma RecordRefusedKept(s: State, call: Call, error: Error)
    requires call.PageCall? && !call.request.feed.Section? && Current(s, KeyOf(call.request), call.token)
    ensures SearchesKept(s, SettlePage(s, call, Rejected(error)))
  {
    var id := call.request.id;
    var feed := call.request.feed;
    RefusedShape(s, call, error);
    FailAfterKept(s, id, Refused(RecordOf(s, id), feed), SlotOf(feed), error);
  }

  lemma PageRefusedKept(s: State, call: Call, error: Error)
    requires call.PageCall?
    ensures SearchesKept(s, SettlePage(s, call, Rejected(error)))
  {
    if !Current(s, KeyOf(call.request), call.token) {
      SameRecordsKept(s, s);
    } else if call.request.feed.Section? {
      SectionRefusedKept(s, call.request.id, call.request.feed.query, error);
    } else {
      RecordRefusedKept(s, call, error);
    }
  }

  /** A live page is of the query its record shows, and goes on from its record's list. */
  lemma PageBroughtOk(s: State, k: nat, page: Page)
    requires Inv(s) && QueriesOk(s) && k in s.calls && s.calls[k].PageCall?
    ensures QueriesOk(SettlePage(DropCall(s, k), s.calls[k], PageIs(page)))
  {
    var call := s.calls[k];
    var r := call.request;
    var rest := DropCall(s, k);
    if Live(s, KeyOf(r), k) && !r.feed.Section? {
      PageCallFacts(s, k);
      AnsweredShape(rest, call, page);
      assert OneQuery(RecordOf(s, r.id));
      AnsweredOneQuery(RecordOf(s, r.id), call, page);
      SameRecordsKept(s, rest);
      KeptOk(s, rest);
      PatchOneQuery(rest, r.id, Answered(RecordOf(s, r.id), r.feed, Extend(call.before, call.more, Reply(r, page))));
    } else {
      SameRecordsKept(s, SettlePage(rest, call, PageIs(page)));
      KeptOk(s, SettlePage(rest, call, PageIs(page)));
    }
  }

  lemma AnsweredOneQuery(was: Browse, call: Call, page: Page)
    requires OneQuery(was) && call.PageCall? && !call.request.feed.Section?
    requires call.request.feed.Search? ==>
               call.request.feed.query == was.searchQuery && (call.more ==> call.before == was.search)
    ensures OneQuery(Answered(was, call.request.feed, Extend(call.before, call.more, Reply(call.request, page))))
  {
  }

  lemma PatchOneQuery(s: State, id: Source, b: Browse)
    requires QueriesOk(s) && OneQuery(b)
    ensures QueriesOk(Patch(s, id, b))
  {
    forall other ensures OneQuery(RecordOf(Patch(s, id, b), other)) {
      assert OneQuery(RecordOf(s, other));
    }
  }

  lemma SearchingOneQuery(was: Browse, trimmed: string, more: bool)
    requires OneQuery(was) && (more ==> trimmed == was.searchQuery)
    ensures OneQuery(Searching(was, trimmed, more))
  {
  }

  lemma SearchSent(s: State, query: string, more: bool)
    requires QueriesOk(s) && Trim(query) != "" && RunSearchStep(s, query, more) != s
    requires more ==> Trim(query) == RecordOf(s, ActiveId(s)).searchQuery
    ensures QueriesOk(RunSearchStep(s, query, more))
  {
    var id := ActiveId(s);
    var b := Searching(RecordOf(s, id), Trim(query), more);
    assert OneQuery(RecordOf(s, id));
    SearchingOneQuery(RecordOf(s, id), Trim(query), more);
    PatchOneQuery(s, id, b);
    SearchShape(s, query, more);
    SameRecordsKept(Patch(s, id, b), RunSearchStep(s, query, more));
    KeptOk(Patch(s, id, b), RunSearchStep(s, query, more));
  }

  /** A search that continues leaves no query mixed. */
  lemma SearchOk(s: State, query: string, more: bool)
    requires QueriesOk(s) && Continues(s, RunSearch(query, more))
    ensures QueriesOk(RunSearchStep(s, query, more))
  {
    if Trim(query) == "" {
      ClearKept(s);
      KeptOk(s, ClearSearchStep(s));
    } else if RunSearchStep(s, query, more) != s {
      SearchSent(s, query, more);
    }
  }

  lemma SearchShape(s: State, query: string, more: bool)
    requires Trim(query) != ""
    requires RunSearchStep(s, query, more) != s
    ensures RunSearchStep(s, query, more).records
            == Patch(s, ActiveId(s), Searching(RecordOf(s, ActiveId(s)), Trim(query), more)).records
  {
  }

  lemma QueriesKept(s: State, e: Event)
    requires Inv(s) && QueriesOk(s) && Possible(s, e) && Continues(s, e)
    ensures QueriesOk(Step(s, e))
  {
    if e.RunSearch? {
      SearchOk(s, e.query, e.more);
    } else if !e.Settle? {
      ActionKept(s, e);
      KeptOk(s, Step(s, e));
    } else if !s.calls[e.call].PageCall? {
      SettlementKept(s, e.call, e.outcome);
      SameRecordsKept(s, DropCall(s, e.call));
      KeptThrough(s, DropCall(s, e.call), Step(s, e));
      KeptOk(s, Step(s, e));
    } else if e.outcome.PageIs? {
      PageBroughtOk(s, e.call, e.outcome.page);
    } else {
      PageRefusedKept(DropCall(s, e.call), s.calls[e.call], e.outcome.error);
      SameRecordsKept(s, DropCall(s, e.call));
      KeptThrough(s, DropCall(s, e.call), Step(s, e));
      KeptOk(s, Step(s, e));
    }
  }
}
