/** The promises of the browsing store, over every run from the empty store. */
module CatalogBrowseTheorems {
  import opened Basics
  import opened CatalogBrowse
  import opened CatalogBrowseProofs
  import opened CatalogBrowseRuns
  import opened CatalogBrowseServer
  import opened CatalogBrowseQueries
  import opened CatalogBrowseSections
  import opened CatalogBrowseSessions

  /** `es` is an interleaving that leads from `s` to `t`. */
  ghost predicate Runs(s: State, es: seq<Event>, t: State)
    decreases |es|
  {
    if es == [] then s == t
    else Possible(s, es[0]) && Runs(Step(s, es[0]), es[1..], t)
  }

  lemma {:induction false} RunKeeps(s: State, es: seq<Event>, t: State)
    requires Inv(s) && Runs(s, es, t)
    ensures Inv(t)
    decreases |es|
  {
    if es != [] {
      StepKeeps(s, es[0]);
      RunKeeps(Step(s, es[0]), es[1..], t);
    }
  }

  // ---------- lists ----------

  ghost predicate ServedRun(server: Server, s: State, es: seq<Event>)
    decreases |es|
  {
    es == [] || (Possible(s, es[0]) && Serves(server, s, es[0]) && ServedRun(server, Step(s, es[0]), es[1..]))
  }

  lemma {:induction false} HonestRun(server: Server, s: State, es: seq<Event>, t: State)
    requires HonestStore(server, s) && Runs(s, es, t) && ServedRun(server, s, es)
    ensures HonestStore(server, t)
    decreases |es|
  {
    if es != [] {
      HonestStep(server, s, es[0]);
      HonestRun(server, Step(s, es[0]), es[1..], t);
    }
  }

  /**
  Over every interleaving: the liked list and each cached playlist are the server's pages from the null
  cursor, in order, none skipped and none twice, and the stored cursor is where they stop. The open
  playlist is the cached one, and the streaming view shows the active source's record.
  */
  lemma ListsAreServerPages(server: Server, es: seq<Event>, t: State, id: Source)
    requires Runs(INITIAL, es, t) && ServedRun(server, INITIAL, es)
    ensures var b := RecordOf(t, id);
            && IsWalk(server, b.liked, id, Liked)
            && (forall r <- b.details :: IsWalk(server, b.details[r], id, Playlist(r)))
            && b.detail == Opened(b)
    ensures t.view == Streaming ==> t.active.Some? && t.top == RecordOf(t, t.active.value)
  {
    InitialOk();
    RunKeeps(INITIAL, es, t);
    HonestRun(server, INITIAL, es, t);
    HonestRecordOf(server, t, id);
    var b := RecordOf(t, id);
    assert RecordOk(t, id, b);
    HonestChainIsWalk(server, b.liked, id, Liked);
    forall r <- b.details ensures IsWalk(server, b.details[r], id, Playlist(r)) {
      HonestChainIsWalk(server, b.details[r], id, Playlist(r));
    }
  }

  /**
  Every section of the global search too, from the null cursor or, when a failed section is
  asked again, an empty one.
  */
  lemma SectionsAreServerPages(server: Server, es: seq<Event>, t: State, id: Source)
    requires Runs(INITIAL, es, t) && ServedRun(server, INITIAL, es) && id in t.global.sections
    ensures var l := t.global.sections[id].listing; var feed := Section(t.global.query);
            IsWalk(server, l, id, feed) || IsWalk(server, l, id, feed, Some(""))
  {
    InitialOk();
    RunKeeps(INITIAL, es, t);
    HonestRun(server, INITIAL, es, t);
    HonestChainIsWalk(server, t.global.sections[id].listing, id, Section(t.global.query));
  }

  /** In this run every search for more goes on with the query shown. */
  ghost predicate SearchesContinue(s: State, es: seq<Event>)
    decreases |es|
  {
    es == [] || (Possible(s, es[0]) && Continues(s, es[0]) && SearchesContinue(Step(s, es[0]), es[1..]))
  }

  lemma {:induction false} RunKeepsQueries(s: State, es: seq<Event>, t: State)
    requires Inv(s) && QueriesOk(s) && Runs(s, es, t) && SearchesContinue(s, es)
    ensures QueriesOk(t)
    decreases |es|
  {
    if es != [] {
      StepKeeps(s, es[0]);
      QueriesKept(s, es[0]);
      RunKeepsQueries(Step(s, es[0]), es[1..], t);
    }
  }

  /** If searches for more keep to their query, the search results too are the server's pages, for the query shown. */
  lemma SearchesAreServerPages(server: Server, es: seq<Event>, t: State, id: Source)
    requires Runs(INITIAL, es, t) && ServedRun(server, INITIAL, es) && SearchesContinue(INITIAL, es)
    ensures IsWalk(server, RecordOf(t, id).search, id, Search(RecordOf(t, id).searchQuery))
  {
    InitialOk();
    RunKeeps(INITIAL, es, t);
    RunKeepsQueries(INITIAL, es, t);
    HonestRun(server, INITIAL, es, t);
    HonestRecordOf(server, t, id);
    var b := RecordOf(t, id);
    assert RecordOk(t, id, b);
    assert OneQuery(b);
    HonestChainIsWalk(server, b.search, id, Search(b.searchQuery));
  }

  /** Whatever is searched for, the results are linked pages of searches, and the cursor is where they stop. */
  lemma SearchesAreLinked(es: seq<Event>, t: State, id: Source)
    requires Runs(INITIAL, es, t)
    ensures var l := RecordOf(t, id).search;
            && l.tracks == Concat(l.pages) && l.cursor == End(l.pages)
            && (l.pages != [] ==> l.pages[0].request.cursor == None)
            && (forall i | 0 < i < |l.pages| :: GoesOn(l.pages, i))
  {
    InitialOk();
    RunKeeps(INITIAL, es, t);
    assert RecordOk(t, id, RecordOf(t, id));
  }

  /** No list of a source's record holds a page that was asked for before the source was last reset. */
  lemma ListsAreOfThisSession(es: seq<Event>, t: State, id: Source)
    requires Runs(INITIAL, es, t)
    ensures var b := RecordOf(t, id);
            && FromEpoch(b.liked, Epoch(t, id)) && FromEpoch(b.search, Epoch(t, id))
            && (forall r <- b.details :: FromEpoch(b.details[r], Epoch(t, id)))
  {
    InitialOk();
    RunKeeps(INITIAL, es, t);
    assert RecordOk(t, id, RecordOf(t, id));
  }

  /** Every global-search section holds linked pages of the query that is shown. */
  lemma SectionsAreChains(es: seq<Event>, t: State, id: Source)
    requires Runs(INITIAL, es, t) && id in t.global.sections
    ensures Chain(t.global.sections[id].listing, id, Section(t.global.query))
  {
    InitialOk();
    RunKeeps(INITIAL, es, t);
  }

  /** No record spins for ever: whatever it waits for has a live request out. */
  lemma SpinnersAreAnswered(es: seq<Event>, t: State, id: Source, key: Key)
    requires Runs(INITIAL, es, t) && Spins(id, RecordOf(t, id), key)
    ensures exists k :: Live(t, key, k) && (key.operation.OnAuth? ==> t.calls[k].OpenCall?)
  {
    InitialOk();
    RunKeeps(INITIAL, es, t);
    assert RecordOk(t, id, RecordOf(t, id));
    assert Awaited(t, key);
  }

  /**
  A live reply puts its page where it belongs: a first page replaces the list, a further page is added to
  the list as it stands, so nothing is lost or doubled however long the reply took.
  */
  lemma LiveReplyAdvances(es: seq<Event>, t: State, k: nat, page: Page)
    requires Runs(INITIAL, es, t)
    requires k in t.calls && t.calls[k].PageCall? && Live(t, KeyOf(t.calls[k].request), k)
    requires !t.calls[k].request.feed.Section?
    ensures var call := t.calls[k]; var r := call.request;
            var list := ListingIn(RecordOf(t, r.id), r.feed);
            var after := ListingIn(RecordOf(Step(t, Settle(k, PageIs(page))), r.id), r.feed);
            && (call.more ==> list.Some? && r.cursor == list.value.cursor)
            && (!call.more ==> r.cursor == None)
            && after.Some? && after.value.cursor == page.next
            && after.value.tracks == (if call.more then list.value.tracks else []) + page.tracks
  {
    InitialOk();
    RunKeeps(INITIAL, es, t);
    PageCallFacts(t, k);
    LiveReplyShape(t, k, page);
  }

  lemma LiveReplyShape(t: State, k: nat, page: Page)
    requires k in t.calls && t.calls[k].PageCall? && Live(t, KeyOf(t.calls[k].request), k)
    requires !t.calls[k].request.feed.Section?
    ensures var call := t.calls[k]; var r := call.request;
            var after := ListingIn(RecordOf(Step(t, Settle(k, PageIs(page))), r.id), r.feed);
            && after.Some? && after.value.cursor == page.next
            && after.value.tracks == (if call.more then call.before.tracks else []) + page.tracks
  {
    AnsweredShape(DropCall(t, k), t.calls[k], page);
    assert [] + page.tracks == page.tracks;
  }

  // ---------- a search for more must go on with its own query ----------

  /** The call that a sent search leaves out, and what its reply then does to the record. */
  lemma SearchSentShape(s: State, query: string, more: bool, page: Page)
    requires Tokens(s) && Trim(query) != ""
    requires more ==> Truthy(RecordOf(s, ActiveId(s)).search.cursor) && RecordOf(s, ActiveId(s)).searchStatus != Loading
    ensures var id := ActiveId(s);
            var t := Step(s, RunSearch(query, more));
            && s.nextId in t.calls && t.calls[s.nextId].PageCall?
            && Live(t, Key(id, OnSearch), s.nextId)
            && (var b := RecordOf(Step(t, Settle(s.nextId, PageIs(page))), id);
                && b.searchQuery == Trim(query)
                && b.search.pages == (if more then RecordOf(s, id).search.pages else [])
                                     + [Reply(t.calls[s.nextId].request, page)])
  {
    var id := ActiveId(s);
    var t := Step(s, RunSearch(query, more));
    SearchIsSent(s, query, more);
    SearchIsAnswered(t, s.nextId, page);
  }

  lemma SearchIsAnswered(t: State, k: nat, page: Page)
    requires k in t.calls && t.calls[k].PageCall? && Live(t, KeyOf(t.calls[k].request), k)
    requires t.calls[k].request.feed.Search?
    ensures var call := t.calls[k];
            var b := RecordOf(Step(t, Settle(k, PageIs(page))), call.request.id);
            && b.searchQuery == RecordOf(t, call.request.id).searchQuery
            && b.search.pages == (if call.more then call.before.pages else []) + [Reply(call.request, page)]
  {
    AnsweredShape(DropCall(t, k), t.calls[k], page);
  }

  lemma SearchIsSent(s: State, query: string, more: bool)
    requires Tokens(s) && Trim(query) != ""
    requires more ==> Truthy(RecordOf(s, ActiveId(s)).search.cursor) && RecordOf(s, ActiveId(s)).searchStatus != Loading
    ensures var id := ActiveId(s);
            var t := Step(s, RunSearch(query, more));
            && s.nextId in t.calls && Live(t, Key(id, OnSearch), s.nextId)
            && t.calls[s.nextId].PageCall? && t.calls[s.nextId].more == more
            && t.calls[s.nextId].request.id == id && t.calls[s.nextId].request.feed == Search(Trim(query))
            && t.calls[s.nextId].before == RecordOf(s, id).search
            && RecordOf(t, id).searchQuery == Trim(query)
  {
  }

  /** A list that can go on has a first page, and if it is of one query that page is of it. */
  lemma FirstPageOf(s: State, id: Source)
    requires ListingsOk(s, id, RecordOf(s, id)) && OneQuery(RecordOf(s, id)) && Truthy(RecordOf(s, id).search.cursor)
    ensures var was := RecordOf(s, id);
            was.search.pages != [] && was.search.pages[0].request.feed == Search(was.searchQuery)
  {
  }

  /** A page put behind a list of one query leaves a list of the query shown now exactly when the queries agree. */
  lemma OneQueryWhen(was: Browse, b: Browse, reply: Reply)
    requires OneQuery(was) && was.search.pages != [] && was.search.pages[0].request.feed == Search(was.searchQuery)
    requires b.search.pages == was.search.pages + [reply] && reply.request.feed == Search(b.searchQuery)
    ensures OneQuery(b) <==> b.searchQuery == was.searchQuery
  {
    assert b.search.pages[0] == was.search.pages[0];
  }

  /**
  Asked for more under another query, the store mixes the two queries' pages in one list: the list that the
  reply leaves belongs to the query shown exactly when the query was the one shown before.
  */
  lemma SearchMoreMixesQueries(s: State, query: string, page: Page)
    requires Inv(s) && OneQuery(RecordOf(s, ActiveId(s))) && Trim(query) != ""
    requires Truthy(RecordOf(s, ActiveId(s)).search.cursor) && RecordOf(s, ActiveId(s)).searchStatus != Loading
    ensures var id := ActiveId(s);
            var t := Step(s, RunSearch(query, true));
            && s.nextId in t.calls && t.calls[s.nextId].PageCall?
            && (OneQuery(RecordOf(Step(t, Settle(s.nextId, PageIs(page))), id))
                <==> Continues(s, RunSearch(query, true)))
  {
    var id := ActiveId(s);
    var was := RecordOf(s, id);
    var t := Step(s, RunSearch(query, true));
    assert RecordOk(s, id, was);
    FirstPageOf(s, id);
    SearchSentShape(s, query, true, page);
    SearchIsSent(s, query, true);
    OneQueryWhen(was, RecordOf(Step(t, Settle(s.nextId, PageIs(page))), id), Reply(t.calls[s.nextId].request, page));
  }

  // ---------- what is superseded stays silent ----------

  ghost predicate Later(s: State, t: State) {
    && s.nextId <= t.nextId
    && (forall key <- s.generations :: key in t.generations && s.generations[key] <= t.generations[key])
    && (forall k <- t.calls :: k < s.nextId ==> k in s.calls && t.calls[k] == s.calls[k])
  }

  lemma LaterFail(s: State, id: Source, slot: string, error: Error)
    ensures Later(s, Fail(s, id, slot, error))
  {
  }

  lemma LaterStarts(s: State, ids: seq<Source>, query: string)
    ensures Later(s, AddStarts(s, ids, query))
    decreases |ids|
  {
    if ids != [] {
      LaterStarts(AddCall(s, SectionStart(ids[0], query)), ids[1..], query);
    }
  }

  lemma LaterTrans(s: State, t: State, u: State)
    requires Later(s, t) && Later(t, u)
    ensures Later(s, u)
  {
  }

  lemma LaterSend(s: State, id: Source, feed: Feed, more: bool, before: Listing, cursor: Option<string>, b: Browse)
    ensures Later(s, SendPage(s, id, feed, more, before, cursor, b))
  {
  }

  lemma LaterPatch(s: State, id: Source, b: Browse)
    ensures Later(s, Patch(s, id, b))
  {
  }

  lemma LaterReset(s: State, id: Source, b: Browse)
    ensures Later(s, Reset(s, id, b))
  {
  }

  lemma LaterSection(s: State, id: Source, query: string, cursor: Option<string>)
    ensures Later(s, SearchSectionStep(s, id, query, cursor))
  {
    if MaySearch(FindSource(s.sources, id), RecordOf(s, id).session) {
      SearchSectionShape(s, id, query, cursor);
    }
  }

  lemma LaterSession(s: State, id: Source, thenSearch: Option<string>)
    ensures Later(s, LoadSessionStep(s, id, thenSearch))
  {
  }

  lemma LaterCancel(s: State, id: Source, thenOpen: bool)
    ensures Later(s, CancelSignInStep(s, id, thenOpen))
  {
  }

  lemma LaterSignInError(s: State, id: Source, challenge: Challenge, message: string)
    ensures Later(s, SetSignInErrorStep(s, id, challenge, message))
  {
  }

  lemma LaterLiked(s: State, more: bool)
    ensures Later(s, LoadLikedStep(s, more))
  {
    var id := ActiveId(s);
    var was := RecordOf(s, id);
    LaterSend(s, id, Liked, more, was.liked, if more then was.liked.cursor else None,
              was.(likedStatus := Loading, likedLoadingMore := more));
  }

  lemma LaterPlaylist(s: State, remote: Remote, more: bool)
    ensures Later(s, OpenPlaylistStep(s, remote, more))
  {
    var id := ActiveId(s);
    var was := RecordOf(s, id);
    var before := if remote in was.details then was.details[remote] else NO_LISTING;
    LaterPatch(s, id, Shown(was, remote, more));
    LaterSend(s, id, Playlist(remote), more, before, if more then before.cursor else None, Shown(was, remote, more));
  }

  lemma LaterClear(s: State)
    ensures Later(s, ClearSearchStep(s))
  {
  }

  lemma LaterSearch(s: State, query: string, more: bool)
    ensures Later(s, RunSearchStep(s, query, more))
  {
    var id := ActiveId(s);
    var was := RecordOf(s, id);
    if Trim(query) == "" {
      LaterClear(s);
    } else if !(more && (!Truthy(was.search.cursor) || was.searchStatus == Loading)) {
      LaterSend(s, id, Search(Trim(query)), more, was.search, if more then was.search.cursor else None,
                Searching(was, Trim(query), more));
    }
  }

  lemma LaterEverywhere(s: State, query: string)
    ensures Later(s, SearchEverywhereStep(s, query))
  {
    var trimmed := Trim(query);
    var ids := Candidates(s.sources);
    LaterStarts(s.(view := SearchView, active := None, top := EMPTY_BROWSE,
      global := GlobalSearch(trimmed, map id | id in ids :: SectionState(Loading, NO_LISTING))), ids, trimmed);
  }

  lemma LaterAccept(s: State, id: Source, session: Session)
    ensures Later(s, AcceptSignInStep(s, id, session))
  {
    LaterReset(s, id, EMPTY_BROWSE.(session := Some(session), sessionStatus := Ready));
  }

  lemma LaterApply(s: State, source: SourceInfo)
    ensures Later(s, ApplySourceStep(s, source))
  {
    LaterReset(s, source.id, EMPTY_BROWSE);
  }

  lemma LaterSources(s: State, e: Event)
    requires e.AcceptSignIn? || e.ApplySource? || e.ClosePlaylist? || e.SignOut? || e.ShowLibrary? || e.ShowSource?
    ensures Later(s, Step(s, e))
  {
    match e {
      case AcceptSignIn(source, session) => LaterAccept(s, source, session);
      case ApplySource(source) => LaterApply(s, source);
      case _ =>
    }
  }

  lemma LaterAction(s: State, e: Event)
    requires !e.Settle?
    ensures Later(s, Step(s, e))
  {
    match e
    case SearchEverywhere(query) => LaterEverywhere(s, query);
    case LoadLiked(more) => LaterLiked(s, more);
    case OpenPlaylist(remote, more) => LaterPlaylist(s, remote, more);
    case RunSearch(query, more) => LaterSearch(s, query, more);
    case ClearSearch => LaterClear(s);
    case SearchMoreIn(source) =>
      if source in s.global.sections {
        LaterSection(s, source, s.global.query, s.global.sections[source].listing.cursor);
      }
    case LoadSession(source) => LaterSession(s, source, None);
    case OpenSignIn(source) => LaterCancel(s, source, true);
    case CancelSignIn(source) => LaterCancel(s, source, false);
    case SetSignInError(source, challenge, message) => LaterSignInError(s, source, challenge, message);
    case _ => LaterSources(s, e);
  }

  lemma LaterFailed(s: State, id: Source, b: Browse, slot: string, error: Error)
    ensures Later(s, Fail(Patch(s, id, b), id, slot, error))
  {
    LaterFail(Patch(s, id, b), id, slot, error);
  }

  lemma LaterPageOk(s: State, call: Call, page: Page)
    requires call.PageCall?
    ensures Later(s, SettlePage(s, call, PageIs(page)))
  {
  }

  lemma LaterSectionFailed(s: State, call: Call, error: Error)
    requires call.PageCall? && call.request.feed.Section?
    ensures Later(s, SettlePage(s, call, Rejected(error)))
  {
    var id := call.request.id;
    LaterFail(SetSection(s, id, call.request.feed.query, SectionOf(s, id).(status := Errored)), id, "search", error);
  }

  lemma LaterFeedFailed(s: State, call: Call, error: Error)
    requires call.PageCall? && !call.request.feed.Section?
    ensures Later(s, SettlePage(s, call, Rejected(error)))
  {
    var id := call.request.id;
    var b := Refused(RecordOf(s, id), call.request.feed);
    if b == RecordOf(s, id) {
      LaterFail(s, id, "playlist", error);
    }
    if call.request.feed.Liked? {
      LaterFailed(s, id, b, "liked", error);
    } else if call.request.feed.Playlist? {
      LaterFailed(s, id, b, "playlist", error);
    } else {
      LaterFailed(s, id, b, "search", error);
    }
  }

  lemma LaterPage(s: State, call: Call, outcome: Outcome)
    requires call.PageCall? && Fits(call, outcome)
    ensures Later(s, SettlePage(s, call, outcome))
  {
    match outcome
    case PageIs(page) => LaterPageOk(s, call, page);
    case Rejected(error) =>
      if call.request.feed.Section? {
        LaterSectionFailed(s, call, error);
      } else {
        LaterFeedFailed(s, call, error);
      }
  }

  lemma LaterStart(s: State, id: Source, query: string)
    ensures Later(s, SettleSectionStart(s, id, query))
  {
    LaterSession(s, id, Some(query));
    LaterSection(s, id, query, None);
  }

  lemma LaterSignedOut(s: State, id: Source, outcome: Outcome)
    ensures Later(s, SettleSignOut(s, id, outcome))
  {
    match outcome {
      case SessionIs(session) => LaterReset(s, id, EMPTY_BROWSE.(session := Some(session), sessionStatus := Ready));
      case Rejected(error) => LaterFail(s, id, "auth", error);
      case _ =>
    }
  }

  lemma LaterPlain(s: State, call: Call)
    ensures Later(s, s) && Later(s, SettleOpenAfterCancel(s, IdOf(call)))
    ensures call.PollTimer? ==> Later(s, SettleTimer(s, call))
  {
  }

  lemma LaterSessionSettled(s: State, call: Call, outcome: Outcome)
    requires call.SessionCall? && Fits(call, outcome)
    ensures Later(s, SettleSession(s, call, outcome))
  {
    if outcome.Rejected? {
      LaterFailed(s, call.id, RecordOf(s, call.id).(sessionStatus := Errored), "session", outcome.error);
    }
  }

  lemma LaterCancelled(s: State, call: Call, outcome: Outcome)
    requires call.CancelCall? && Fits(call, outcome)
    ensures Later(s, SettleCancel(s, call, outcome))
  {
    if outcome.Rejected? {
      LaterFail(s, call.id, "auth", outcome.error);
    }
  }

  lemma LaterOpened(s: State, call: Call, outcome: Outcome)
    requires call.OpenCall? && Fits(call, outcome)
    ensures Later(s, SettleOpen(s, call, outcome))
  {
    if outcome.Rejected? {
      LaterFailed(s, call.id, RecordOf(s, call.id).(authStatus := Errored), "auth", outcome.error);
    }
  }

  lemma LaterPolled(s: State, call: Call, outcome: Outcome)
    requires call.PollCall? && Fits(call, outcome)
    ensures Later(s, SettlePoll(s, call, outcome))
  {
    match outcome {
      case PollIs(Complete(Some(session))) =>
        LaterReset(s, call.id, EMPTY_BROWSE.(session := Some(session), sessionStatus := Ready));
      case Rejected(error) =>
        LaterFailed(s, call.id, RecordOf(s, call.id).(challenge := None, authStatus := Idle), "auth", error);
      case _ =>
    }
  }

  lemma LaterSettle(s: State, k: nat, outcome: Outcome)
    requires k in s.calls && Fits(s.calls[k], outcome)
    ensures Later(s, SettleStep(s, k, outcome))
  {
    var rest := DropCall(s, k);
    LaterPlain(rest, s.calls[k]);
    assert Later(rest, SettleStep(s, k, outcome)) by {
      match s.calls[k]
      case PageCall(_, _, _, _) => LaterPage(rest, s.calls[k], outcome);
      case SessionCall(_, _, _) => LaterSessionSettled(rest, s.calls[k], outcome);
      case SectionStart(id, query) => LaterStart(rest, id, query);
      case CancelCall(_, _, _, _) => LaterCancelled(rest, s.calls[k], outcome);
      case OpenCall(_, _) => LaterOpened(rest, s.calls[k], outcome);
      case PollCall(_, _, _) => LaterPolled(rest, s.calls[k], outcome);
      case SignOutCall(id) => LaterSignedOut(rest, id, outcome);
      case OpenAfterCancel(_) =>
      case LateCancelCall(_, _) =>
      case PollTimer(_, _, _) =>
    }
    LaterTrans(s, rest, SettleStep(s, k, outcome));
  }

  lemma LaterStep(s: State, e: Event)
    requires Possible(s, e)
    ensures Later(s, Step(s, e))
  {
    if e.Settle? {
      LaterSettle(s, e.call, e.outcome);
    } else {
      LaterAction(s, e);
    }
  }

  lemma {:induction false} LaterRun(s: State, es: seq<Event>, t: State)
    requires Runs(s, es, t)
    ensures Later(s, t)
    decreases |es|
  {
    if es != [] {
      LaterStep(s, es[0]);
      LaterRun(Step(s, es[0]), es[1..], t);
      LaterTrans(s, Step(s, es[0]), t);
    }
  }

  /** What a reply can change of what the user sees: nothing of it differs between `s` and `t`. */
  predicate Unseen(s: State, t: State) {
    && s.records == t.records && s.top == t.top && s.view == t.view && s.active == t.active
    && s.global == t.global && s.sources == t.sources && s.generations == t.generations
  }

  lemma StaysSuperseded(s: State, es: seq<Event>, t: State, k: nat)
    requires Tokens(s) && k in s.calls && Held(s.calls[k]).Some? && !Live(s, Held(s.calls[k]).value, k)
    requires Runs(s, es, t) && k in t.calls
    ensures t.calls[k] == s.calls[k] && !Live(t, Held(t.calls[k]).value, k)
  {
    LaterRun(s, es, t);
    var key := Held(s.calls[k]).value;
    assert TokenOf(s.calls[k]) < s.generations[key];
  }

  /**
  A call that has lost its token does nothing but leave, or have its challenge cancelled, or
  let a waiting action start.
  */
  lemma SupersededIsSilent(t: State, k: nat, outcome: Outcome)
    requires k in t.calls && Held(t.calls[k]).Some? && !Live(t, Held(t.calls[k]).value, k) && Fits(t.calls[k], outcome)
    ensures Unseen(t, Step(t, Settle(k, outcome)))
  {
    if t.calls[k].PageCall? {
      SupersededPageIsSilent(t, k, outcome);
    } else if t.calls[k].PollTimer? || t.calls[k].PollCall? {
      SupersededPollIsSilent(t, k, outcome);
    } else if t.calls[k].SessionCall? {
      SupersededSessionIsSilent(t, k, outcome);
    } else {
      SupersededSignInIsSilent(t, k, outcome);
    }
  }

  lemma SupersededSessionIsSilent(t: State, k: nat, outcome: Outcome)
    requires k in t.calls && t.calls[k].SessionCall? && Fits(t.calls[k], outcome)
    requires !Live(t, Key(t.calls[k].id, OnSession), k)
    ensures Unseen(t, Step(t, Settle(k, outcome)))
  {
  }

  lemma SupersededSignInIsSilent(t: State, k: nat, outcome: Outcome)
    requires k in t.calls && (t.calls[k].OpenCall? || t.calls[k].CancelCall?) && Fits(t.calls[k], outcome)
    requires !Live(t, Key(t.calls[k].id, OnAuth), k)
    ensures Unseen(t, Step(t, Settle(k, outcome)))
  {
  }

  lemma SupersededPollIsSilent(t: State, k: nat, outcome: Outcome)
    requires k in t.calls && (t.calls[k].PollTimer? || t.calls[k].PollCall?) && Fits(t.calls[k], outcome)
    requires !Live(t, Key(t.calls[k].id, OnAuth), k)
    ensures Unseen(t, Step(t, Settle(k, outcome)))
  {
  }

  lemma SupersededPageIsSilent(t: State, k: nat, outcome: Outcome)
    requires k in t.calls && t.calls[k].PageCall? && !Live(t, KeyOf(t.calls[k].request), k) && Fits(t.calls[k], outcome)
    ensures Unseen(t, Step(t, Settle(k, outcome)))
  {
  }

  /**
  A request, a sign-in poll, an opening or a cancellation that is not the newest of its kind for its
  source never becomes it again, and whenever it settles, however late and with whatever outcome, it
  changes nothing that is shown: no list, session, challenge or error.
  */
  lemma SupersededNeverWrites(s: State, es: seq<Event>, t: State, k: nat, outcome: Outcome)
    requires Inv(s) && k in s.calls && Held(s.calls[k]).Some? && !Live(s, Held(s.calls[k]).value, k)
    requires Runs(s, es, t) && k in t.calls && Fits(t.calls[k], outcome)
    ensures Unseen(t, Step(t, Settle(k, outcome)))
  {
    StaysSuperseded(s, es, t, k);
    SupersededIsSilent(t, k, outcome);
  }

  /**
  A source that is taken away, a sign-in that is accepted, a sign-out that succeeds and a session found expired
  supersede all calls the source has out, and no other event does that to a source.
  */
  lemma ResetSupersedesAll(es: seq<Event>, t: State, e: Event, id: Source, k: nat)
    requires Runs(INITIAL, es, t) && Possible(t, e)
    ensures Epoch(Step(t, e), id) == Epoch(t, id) + if Resets(t, e, id) then 1 else 0
    ensures var u := Step(t, e);
            Resets(t, e, id) && k in u.calls && Held(u.calls[k]).Some? && IdOf(u.calls[k]) == id ==>
              !Live(u, Held(u.calls[k]).value, k)
  {
    InitialOk();
    RunKeeps(INITIAL, es, t);
    ResetExactlyWhen(t, e, id);
    if Resets(t, e, id) {
      SilentCall(Step(t, e), id, k);
    }
  }

  lemma SilentCall(t: State, id: Source, k: nat)
    requires Silent(t, id)
    ensures k in t.calls && Held(t.calls[k]).Some? && IdOf(t.calls[k]) == id ==> !Live(t, Held(t.calls[k]).value, k)
  {
  }

  // ---------- sign-in ----------

  /** A part of a sign-in loop: an armed timer, or a poll or opening whose token is still the newest. */
  predicate InLoop(s: State, id: Source, k: nat) {
    && k in s.calls
    && (s.calls[k].PollTimer? || s.calls[k].PollCall? || s.calls[k].OpenCall?)
    && s.calls[k].id == id
    && (s.calls[k].PollTimer? || Live(s, Key(id, OnAuth), k))
  }

  /** Per source at most one sign-in loop is alive, and while it polls it polls the stored challenge. */
  lemma OneLoopPerSource(es: seq<Event>, t: State, id: Source, j: nat, k: nat)
    requires Runs(INITIAL, es, t) && InLoop(t, id, j) && InLoop(t, id, k)
    ensures j == k
    ensures !t.calls[j].OpenCall? ==> RecordOf(t, id).challenge == Some(t.calls[j].challenge)
  {
    InitialOk();
    RunKeeps(INITIAL, es, t);
    assert RecordOk(t, id, RecordOf(t, id));
    assert Live(t, Key(id, OnAuth), j) && Live(t, Key(id, OnAuth), k);
  }

  /** A challenge that arrives too late is sent back to be cancelled and is stored nowhere. */
  lemma LateChallengeIsCancelled(s: State, es: seq<Event>, t: State, k: nat, challenge: Challenge)
    requires Inv(s) && k in s.calls && s.calls[k].OpenCall? && !Live(s, Key(s.calls[k].id, OnAuth), k)
    requires Runs(s, es, t) && k in t.calls
    ensures t.calls[k].OpenCall?
         && (var after := Step(t, Settle(k, ChallengeIs(challenge)));
             && Unseen(t, after)
             && after.calls == (t.calls - {k})[t.nextId := LateCancelCall(t.calls[k].id, challenge)])
  {
    StaysSuperseded(s, es, t, k);
    LateChallengeShape(t, k, challenge);
  }

  lemma LateChallengeShape(t: State, k: nat, challenge: Challenge)
    requires k in t.calls && t.calls[k].OpenCall? && !Live(t, Key(t.calls[k].id, OnAuth), k)
    ensures var after := Step(t, Settle(k, ChallengeIs(challenge)));
            && Unseen(t, after)
            && after.calls == (t.calls - {k})[t.nextId := LateCancelCall(t.calls[k].id, challenge)]
  {
  }

  // ---------- the sections of the global search ----------

  /** Whether a section that was owed its answer, or not, is owed it at the end of a run. */
  ghost predicate EndsOwed(s: State, es: seq<Event>, id: Source, owed: bool)
    decreases |es|
  {
    if es == [] then owed
    else Possible(s, es[0])
         && EndsOwed(Step(s, es[0]), es[1..], id, if owed then !Strands(s, es[0], id) else Restarts(es[0]))
  }

  lemma {:induction false} RunOwes(s: State, es: seq<Event>, t: State, id: Source)
    requires Inv(s) && Runs(s, es, t)
    ensures OwedOk(t, id) <==> EndsOwed(s, es, id, OwedOk(s, id))
    decreases |es|
  {
    if es != [] {
      StepKeeps(s, es[0]);
      OwedExactlyWhen(s, es[0], id);
      RunOwes(Step(s, es[0]), es[1..], t, id);
    }
  }

  /**
  Over every run: a section that is loading is owed its answer, by a live request for the query shown or by a
  part of that search still to start, exactly when the run does not strand it after the last search everywhere.
  */
  lemma SectionIsOwedExactlyWhen(es: seq<Event>, t: State, id: Source)
    requires Runs(INITIAL, es, t)
    ensures (Waits(t, id) ==> PageOut(t, id, t.global.query) || PartOut(t, id, t.global.query))
            <==> EndsOwed(INITIAL, es, id, true)
  {
    InitialOk();
    RunOwes(INITIAL, es, t, id);
  }

  /** A stranded section shows its spinner, and asking for more does nothing. */
  lemma StrandedIsStuck(s: State, id: Source)
    requires !OwedOk(s, id)
    ensures Waits(s, id) && Step(s, SearchMoreIn(id)) == s
    ensures forall k :: !(Live(s, Key(id, OnSection), k) && IsSectionPage(s.calls[k], id, s.global.query))
  {
  }

  // ---------- the sections and the sessions of their sources ----------

  lemma {:induction false} RunAges(s: State, es: seq<Event>, t: State)
    requires SectionsAged(s) && Runs(s, es, t)
    ensures SectionsAged(t)
    decreases |es|
  {
    if es != [] {
      StepAges(s, es[0]);
      RunAges(Step(s, es[0]), es[1..], t);
    }
  }

  /** The pages of a section come in the order of the sessions, over every run. */
  lemma SectionsAreInOrder(es: seq<Event>, t: State, id: Source)
    requires Runs(INITIAL, es, t) && id in t.global.sections
    ensures Aged(t.global.sections[id].listing, Epoch(t, id))
  {
    assert SectionsAged(INITIAL);
    RunAges(INITIAL, es, t);
  }

  /** No event of the run resets the source. */
  ghost predicate NoReset(s: State, es: seq<Event>, id: Source)
    decreases |es|
  {
    es == [] || (Possible(s, es[0]) && !Resets(s, es[0], id) && NoReset(Step(s, es[0]), es[1..], id))
  }

  lemma {:induction false} EpochStays(s: State, es: seq<Event>, t: State, id: Source)
    requires Inv(s) && Runs(s, es, t)
    ensures Epoch(s, id) <= Epoch(t, id) && (Epoch(t, id) == Epoch(s, id) <==> NoReset(s, es, id))
    decreases |es|
  {
    if es != [] {
      StepKeeps(s, es[0]);
      ResetExactlyWhen(s, es[0], id);
      EpochStays(Step(s, es[0]), es[1..], t, id);
    }
  }

  /**
  Over every run: a section's pages are all of the present session exactly when no reset of the source came after
  the section's oldest page was asked for.
  */
  lemma SectionIsOfThisSessionExactlyWhen(es: seq<Event>, s: State, e: Event, more: seq<Event>, t: State, id: Source)
    requires Runs(INITIAL, es, s) && Possible(s, e) && Runs(Step(s, e), more, t)
    requires id in t.global.sections && t.global.sections[id].listing.pages != []
    requires Asks(s, e, t.global.sections[id].listing.pages[0].request)
    ensures FromEpoch(t.global.sections[id].listing, Epoch(t, id)) <==> NoReset(Step(s, e), more, id)
  {
    var l := t.global.sections[id].listing;
    InitialOk();
    RunKeeps(INITIAL, es, s);
    StepKeeps(s, e);
    RunKeeps(Step(s, e), more, t);
    AskedNow(s, e, l.pages[0].request);
    EpochStays(Step(s, e), more, t, id);
    SectionAgesHere(es, s, e, more, t);
    OldestDecides(l, Epoch(t, id));
    assert Chain(l, id, Section(t.global.query));
  }

  lemma SectionAgesHere(es: seq<Event>, s: State, e: Event, more: seq<Event>, t: State)
    requires Runs(INITIAL, es, s) && Possible(s, e) && Runs(Step(s, e), more, t)
    ensures SectionsAged(t)
  {
    assert SectionsAged(INITIAL);
    RunAges(INITIAL, es, s);
    StepAges(s, e);
    RunAges(Step(s, e), more, t);
  }
}
