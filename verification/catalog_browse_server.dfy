/** When pages come from one server, every list of the store is a walk along that server's cursors. */
module CatalogBrowseServer {
  import opened Basics
  import opened CatalogBrowse
  import opened CatalogBrowseProofs
  import opened CatalogBrowseRuns

  /** A server: the page it gives for a feed of a source at a cursor. */
  type Server = (Source, Feed, Option<string>) -> Page

  /** `n` pages of a feed, following the cursors from the `first` one, the null cursor if it is left out. */
  function Walk(server: Server, id: Source, feed: Feed, n: nat, first: Option<string> := None): (w: Listing)
    requires n > 0
  {
    if n == 1 then
      var page := server(id, feed, first);
      Listing(page.tracks, page.next, [])
    else
      var before := Walk(server, id, feed, n - 1, first);
      var page := server(id, feed, before.cursor);
      Listing(before.tracks + page.tracks, page.next, [])
  }

  ghost predicate Honest(server: Server, l: Listing) {
    forall i | 0 <= i < |l.pages| ::
      l.pages[i].page == server(l.pages[i].request.id, l.pages[i].request.feed, l.pages[i].request.cursor)
  }

  ghost predicate HonestRecord(server: Server, b: Browse) {
    && Honest(server, b.liked) && Honest(server, b.search)
    && (forall r <- b.details :: Honest(server, b.details[r]))
  }

  ghost predicate HonestStore(server: Server, s: State) {
    && (forall id <- s.records :: HonestRecord(server, s.records[id]))
    && (forall k <- s.calls :: s.calls[k].PageCall? ==> Honest(server, s.calls[k].before))
    && (forall id <- s.global.sections :: Honest(server, s.global.sections[id].listing))
  }

  /** Page requests are answered by this server, or fail. */
  ghost predicate Serves(server: Server, s: State, e: Event) {
    e.Settle? && e.call in s.calls && s.calls[e.call].PageCall? && e.outcome.PageIs? ==>
      var r := s.calls[e.call].request;
      e.outcome.page == server(r.id, r.feed, r.cursor)
  }

  lemma HonestRecordOf(server: Server, s: State, id: Source)
    requires HonestStore(server, s)
    ensures HonestRecord(server, RecordOf(s, id))
  {
  }

  lemma HonestPatch(server: Server, s: State, id: Source, b: Browse)
    requires HonestStore(server, s) && HonestRecord(server, b)
    ensures HonestStore(server, Patch(s, id, b))
  {
  }

  lemma HonestAdd(server: Server, s: State, call: Call)
    requires HonestStore(server, s) && (call.PageCall? ==> Honest(server, call.before))
    ensures HonestStore(server, AddCall(s, call))
  {
  }

  lemma HonestReset(server: Server, s: State, id: Source, b: Browse)
    requires HonestStore(server, s) && HonestRecord(server, b)
    ensures HonestStore(server, Reset(s, id, b))
  {
  }

  lemma HonestSection(server: Server, s: State, id: Source, query: string, section: SectionState)
    requires HonestStore(server, s) && Honest(server, section.listing)
    ensures HonestStore(server, SetSection(s, id, query, section))
  {
  }

  lemma HonestFail(server: Server, s: State, id: Source, slot: string, error: Error)
    requires HonestStore(server, s)
    ensures HonestStore(server, Fail(s, id, slot, error))
  {
    HonestRecordOf(server, s, id);
    var was := RecordOf(s, id);
    var noted := Patch(s, id, was.(errors := was.errors[slot := error.message]));
    HonestPatch(server, s, id, was.(errors := was.errors[slot := error.message]));
    if error.expired {
      HonestReset(server, noted, id, EMPTY_BROWSE.(sessionStatus := Ready, session := Some(Session(false, true))));
    }
  }

  lemma HonestStarts(server: Server, s: State, ids: seq<Source>, query: string)
    requires HonestStore(server, s)
    ensures HonestStore(server, AddStarts(s, ids, query))
    decreases |ids|
  {
    if ids != [] {
      HonestStarts(server, AddCall(s, SectionStart(ids[0], query)), ids[1..], query);
    }
  }

  lemma HonestBump(server: Server, s: State, key: Key)
    requires HonestStore(server, s)
    ensures HonestStore(server, Bump(s, key))
  {
  }

  lemma HonestDrop(server: Server, s: State, k: nat)
    requires HonestStore(server, s)
    ensures HonestStore(server, DropCall(s, k))
  {
  }

  lemma HonestSend(server: Server, s: State, id: Source, feed: Feed, more: bool, before: Listing,
                   cursor: Option<string>, b: Browse)
    requires HonestStore(server, s) && Honest(server, before) && HonestRecord(server, b)
    ensures HonestStore(server, SendPage(s, id, feed, more, before, cursor, b))
  {
    var key := Key(id, OperationOf(feed));
    HonestBump(server, s, key);
    HonestPatch(server, Bump(s, key), id, b);
    HonestAdd(server, Patch(Bump(s, key), id, b),
      PageCall(Request(id, feed, cursor, Epoch(s, id)), more, before, Generation(Bump(s, key), key)));
  }

  lemma HonestLiked(server: Server, s: State, more: bool)
    requires HonestStore(server, s)
    ensures HonestStore(server, LoadLikedStep(s, more))
  {
    var id := ActiveId(s);
    var was := RecordOf(s, id);
    HonestRecordOf(server, s, id);
    HonestSend(server, s, id, Liked, more, was.liked, if more then was.liked.cursor else None,
               was.(likedStatus := Loading, likedLoadingMore := more));
  }

  lemma HonestPlaylist(server: Server, s: State, remote: Remote, more: bool)
    requires HonestStore(server, s)
    ensures HonestStore(server, OpenPlaylistStep(s, remote, more))
  {
    var id := ActiveId(s);
    var was := RecordOf(s, id);
    HonestRecordOf(server, s, id);
    var before := if remote in was.details then was.details[remote] else NO_LISTING;
    HonestPatch(server, s, id, Shown(was, remote, more));
    HonestSend(server, s, id, Playlist(remote), more, before, if more then before.cursor else None,
               Shown(was, remote, more));
  }

  lemma HonestClearSearch(server: Server, s: State)
    requires HonestStore(server, s)
    ensures HonestStore(server, ClearSearchStep(s))
  {
    var id := ActiveId(s);
    HonestRecordOf(server, s, id);
    HonestBump(server, s, Key(id, OnSearch));
    HonestPatch(server, Bump(s, Key(id, OnSearch)), id,
                RecordOf(s, id).(searchQuery := "", search := NO_LISTING, searchStatus := Idle));
  }

  lemma HonestSearch(server: Server, s: State, query: string, more: bool)
    requires HonestStore(server, s)
    ensures HonestStore(server, RunSearchStep(s, query, more))
  {
    var id := ActiveId(s);
    var was := RecordOf(s, id);
    HonestRecordOf(server, s, id);
    HonestClearSearch(server, s);
    HonestSend(server, s, id, Search(Trim(query)), more, was.search, if more then was.search.cursor else None,
               was.(searchQuery := Trim(query), searchStatus := Loading,
                    search := if more then was.search else NO_LISTING));
  }

  lemma HonestSearchSection(server: Server, s: State, id: Source, query: string, cursor: Option<string>)
    requires HonestStore(server, s)
    ensures HonestStore(server, SearchSectionStep(s, id, query, cursor))
  {
    var key := Key(id, OnSection);
    var section := SectionOf(s, id);
    HonestBump(server, s, key);
    HonestSection(server, s, id, query, section.(status := SignedOut));
    HonestSection(server, Bump(s, key), id, query, section.(status := Loading));
    HonestAdd(server, SetSection(Bump(s, key), id, query, section.(status := Loading)),
      PageCall(Request(id, Section(query), cursor, Epoch(s, id)), Truthy(cursor), section.listing,
               Generation(Bump(s, key), key)));
  }

  /** The same lists in the same places: sign-in and session steps touch no list. */
  ghost predicate SameLists(b: Browse, c: Browse) {
    b.liked == c.liked && b.search == c.search && b.details == c.details
  }

  lemma HonestTouch(server: Server, s: State, id: Source, b: Browse)
    requires HonestStore(server, s) && SameLists(RecordOf(s, id), b)
    ensures HonestStore(server, Patch(s, id, b))
  {
    HonestRecordOf(server, s, id);
    HonestPatch(server, s, id, b);
  }

  lemma HonestFailAfter(server: Server, s: State, id: Source, b: Browse, slot: string, error: Error)
    requires HonestStore(server, s) && SameLists(RecordOf(s, id), b)
    ensures HonestStore(server, Fail(Patch(s, id, b), id, slot, error))
  {
    HonestTouch(server, s, id, b);
    HonestFail(server, Patch(s, id, b), id, slot, error);
  }

  lemma HonestLoadSession(server: Server, s: State, id: Source, thenSearch: Option<string>)
    requires HonestStore(server, s)
    ensures HonestStore(server, LoadSessionStep(s, id, thenSearch))
  {
    HonestBump(server, s, Key(id, OnSession));
    HonestTouch(server, Bump(s, Key(id, OnSession)), id, RecordOf(s, id).(sessionStatus := Loading));
  }

  lemma HonestClear(server: Server, s: State, id: Source)
    requires HonestStore(server, s)
    ensures HonestStore(server, ClearTimer(s, id)) && HonestStore(server, ForgetTimer(s, id))
  {
  }

  lemma HonestCancel(server: Server, s: State, id: Source, thenOpen: bool)
    requires HonestStore(server, s)
    ensures HonestStore(server, CancelSignInStep(s, id, thenOpen))
  {
    HonestCleared(server, s, id);
    if RecordOf(s, id).challenge.None? {
      HonestTouch(server, ClearTimer(Bump(s, Key(id, OnAuth)), id), id, RecordOf(s, id).(authStatus := Idle));
    }
  }

  lemma HonestCleared(server: Server, s: State, id: Source)
    requires HonestStore(server, s)
    ensures HonestStore(server, ClearTimer(Bump(s, Key(id, OnAuth)), id))
    ensures RecordOf(ClearTimer(Bump(s, Key(id, OnAuth)), id), id) == RecordOf(s, id)
  {
    HonestBump(server, s, Key(id, OnAuth));
    HonestClear(server, Bump(s, Key(id, OnAuth)), id);
  }

  lemma HonestAccept(server: Server, s: State, id: Source, session: Session)
    requires HonestStore(server, s)
    ensures HonestStore(server, AcceptSignInStep(s, id, session))
  {
    HonestReset(server, s, id, EMPTY_BROWSE.(session := Some(session), sessionStatus := Ready));
  }

  lemma HonestEverywhere(server: Server, s: State, query: string)
    requires HonestStore(server, s)
    ensures HonestStore(server, SearchEverywhereStep(s, query))
  {
    var trimmed := Trim(query);
    var ids := Candidates(s.sources);
    HonestStarts(server, s.(view := SearchView, active := None, top := EMPTY_BROWSE,
      global := GlobalSearch(trimmed, map id | id in ids :: SectionState(Loading, NO_LISTING))), ids, trimmed);
  }

  lemma HonestSignInError(server: Server, s: State, id: Source, challenge: Challenge, message: string)
    requires HonestStore(server, s)
    ensures HonestStore(server, SetSignInErrorStep(s, id, challenge, message))
  {
    HonestBump(server, s, Key(id, OnAuth));
    HonestClear(server, Bump(s, Key(id, OnAuth)), id);
    HonestTouch(server, ForgetTimer(Bump(s, Key(id, OnAuth)), id), id,
                RecordOf(s, id).(signInError := Some(message), challenge := None, authStatus := Errored));
  }

  lemma HonestClosePlaylist(server: Server, s: State)
    requires HonestStore(server, s)
    ensures HonestStore(server, ClosePlaylistStep(s))
  {
    HonestTouch(server, s, ActiveId(s),
                RecordOf(s, ActiveId(s)).(detail := None, selected := None, detailStatus := Idle));
  }

  lemma HonestMore(server: Server, s: State, id: Source)
    requires HonestStore(server, s)
    ensures HonestStore(server, SearchMoreInStep(s, id))
  {
    if id in s.global.sections {
      HonestSearchSection(server, s, id, s.global.query, s.global.sections[id].listing.cursor);
    }
  }

  lemma HonestApply(server: Server, s: State, source: SourceInfo)
    requires HonestStore(server, s)
    ensures HonestStore(server, ApplySourceStep(s, source))
  {
    HonestReset(server, s, source.id, EMPTY_BROWSE);
  }

  lemma HonestView(server: Server, s: State, e: Event)
    requires HonestStore(server, s) && (e.SignOut? || e.ShowLibrary? || e.ShowSource?)
    ensures HonestStore(server, Step(s, e))
  {
    if e.SignOut? {
      HonestAdd(server, s, SignOutCall(e.id));
    }
  }

  lemma HonestAction(server: Server, s: State, e: Event)
    requires HonestStore(server, s) && !e.Settle?
    ensures HonestStore(server, Step(s, e))
  {
    match e {
      case LoadLiked(more) => HonestLiked(server, s, more);
      case OpenPlaylist(remote, more) => HonestPlaylist(server, s, remote, more);
      case RunSearch(query, more) => HonestSearch(server, s, query, more);
      case ClearSearch => HonestClearSearch(server, s);
      case ClosePlaylist => HonestClosePlaylist(server, s);
      case SearchEverywhere(query) => HonestEverywhere(server, s, query);
      case SearchMoreIn(id) => HonestMore(server, s, id);
      case LoadSession(id) => HonestLoadSession(server, s, id, None);
      case OpenSignIn(id) => HonestCancel(server, s, id, true);
      case CancelSignIn(id) => HonestCancel(server, s, id, false);
      case AcceptSignIn(id, session) => HonestAccept(server, s, id, session);
      case SetSignInError(id, challenge, message) => HonestSignInError(server, s, id, challenge, message);
      case ApplySource(source) => HonestApply(server, s, source);
      case SignOut(_) => HonestView(server, s, e);
      case ShowLibrary => HonestView(server, s, e);
      case ShowSource(_) => HonestView(server, s, e);
    }
  }

  lemma HonestAnswered(server: Server, was: Browse, feed: Feed, listing: Listing)
    requires HonestRecord(server, was) && Honest(server, listing)
    ensures HonestRecord(server, Answered(was, feed, listing))
  {
  }

  lemma HonestExtend(server: Server, before: Listing, more: bool, reply: Reply)
    requires Honest(server, before)
    requires reply.page == server(reply.request.id, reply.request.feed, reply.request.cursor)
    ensures Honest(server, Extend(before, more, reply))
  {
  }

  lemma HonestPage(server: Server, s: State, call: Call, outcome: Outcome)
    requires HonestStore(server, s) && call.PageCall? && Honest(server, call.before) && Fits(call, outcome)
    requires outcome.PageIs? ==> outcome.page == server(call.request.id, call.request.feed, call.request.cursor)
    ensures HonestStore(server, SettlePage(s, call, outcome))
  {
    var r := call.request;
    var was := RecordOf(s, r.id);
    HonestRecordOf(server, s, r.id);
    if Current(s, KeyOf(r), call.token) {
      match outcome {
        case PageIs(page) =>
          var listing := Extend(call.before, call.more, Reply(r, page));
          HonestExtend(server, call.before, call.more, Reply(r, page));
          if r.feed.Section? {
            HonestSection(server, s, r.id, r.feed.query, SectionState(Ready, listing));
          } else {
            AnsweredShape(s, call, page);
            HonestAnswered(server, was, r.feed, listing);
            HonestPatch(server, s, r.id, Answered(was, r.feed, listing));
          }
        case Rejected(error) =>
          if r.feed.Section? {
            var section := SectionOf(s, r.id).(status := Errored);
            HonestSection(server, s, r.id, r.feed.query, section);
            HonestFail(server, SetSection(s, r.id, r.feed.query, section), r.id, "search", error);
          } else if r.feed.Playlist? {
            HonestFail(server, s, r.id, "playlist", error);
            HonestFailAfter(server, s, r.id, was.(detailStatus := Errored), "playlist", error);
          } else if r.feed.Liked? {
            HonestFailAfter(server, s, r.id, was.(likedStatus := Errored, likedLoadingMore := false), "liked", error);
          } else {
            HonestFailAfter(server, s, r.id, was.(searchStatus := Errored), "search", error);
          }
      }
    }
  }

  lemma HonestSessionPart(server: Server, s: State, call: Call, outcome: Outcome)
    requires HonestStore(server, s) && call.SessionCall? && call.thenSearch.None? && Fits(call, outcome)
    ensures HonestStore(server, SettleSession(s, call, outcome))
  {
    var was := RecordOf(s, call.id);
    match outcome {
      case SessionIs(session) =>
        HonestTouch(server, s, call.id, was.(session := Some(session), sessionStatus := Ready));
      case Rejected(error) =>
        HonestFailAfter(server, s, call.id, was.(sessionStatus := Errored), "session", error);
    }
  }

  lemma HonestSession(server: Server, s: State, call: Call, outcome: Outcome)
    requires HonestStore(server, s) && call.SessionCall? && Fits(call, outcome)
    ensures HonestStore(server, SettleSession(s, call, outcome))
  {
    HonestSessionPart(server, s, call.(thenSearch := None), outcome);
    if call.thenSearch.Some? {
      HonestAdd(server, SettleSession(s, call.(thenSearch := None), outcome),
                SectionStart(call.id, call.thenSearch.value));
    }
  }

  lemma HonestArm(server: Server, s: State, id: Source, challenge: Challenge, token: nat)
    requires HonestStore(server, s)
    ensures HonestStore(server, Arm(s, id, challenge, token))
  {
    HonestAdd(server, s, PollTimer(id, challenge, token));
  }

  lemma HonestPoll(server: Server, s: State, call: Call, outcome: Outcome)
    requires HonestStore(server, s) && call.PollCall? && Fits(call, outcome)
    ensures HonestStore(server, SettlePoll(s, call, outcome))
  {
    var was := RecordOf(s, call.id);
    match outcome {
      case PollIs(Complete(Some(session))) => HonestAccept(server, s, call.id, session);
      case PollIs(Complete(None)) =>
        HonestTouch(server, s, call.id, was.(challenge := None, errors := was.errors["auth" := "complete"]));
      case PollIs(Pending) => HonestArm(server, s, call.id, call.challenge, call.token);
      case PollIs(Other(state)) =>
        HonestTouch(server, s, call.id, was.(challenge := None, errors := was.errors["auth" := state]));
      case Rejected(error) =>
        HonestFailAfter(server, s, call.id, was.(challenge := None, authStatus := Idle), "auth", error);
    }
  }

  lemma HonestCancelled(server: Server, s: State, call: Call, outcome: Outcome)
    requires HonestStore(server, s) && call.CancelCall? && Fits(call, outcome)
    ensures HonestStore(server, SettleCancel(s, call, outcome))
  {
    HonestCancelPart(server, s, call, outcome);
    if call.thenOpen {
      HonestAdd(server, CancelSettled(s, call, outcome), OpenAfterCancel(call.id));
    }
  }

  lemma HonestCancelPart(server: Server, s: State, call: Call, outcome: Outcome)
    requires HonestStore(server, s) && call.CancelCall? && Fits(call, outcome)
    ensures HonestStore(server, CancelSettled(s, call, outcome))
  {
    HonestTouch(server, s, call.id, RecordOf(s, call.id).(challenge := None, authStatus := Idle));
    if outcome.Rejected? {
      HonestFail(server, s, call.id, "auth", outcome.error);
    }
  }

  lemma HonestOpen(server: Server, s: State, call: Call, outcome: Outcome)
    requires HonestStore(server, s) && call.OpenCall? && Fits(call, outcome)
    ensures HonestStore(server, SettleOpen(s, call, outcome))
  {
    var was := RecordOf(s, call.id);
    match outcome {
      case ChallengeIs(challenge) =>
        var b := was.(challenge := Some(challenge), authStatus := Ready);
        HonestTouch(server, s, call.id, b);
        HonestArm(server, Patch(s, call.id, b), call.id, challenge, call.token);
        HonestAdd(server, s, LateCancelCall(call.id, challenge));
      case Rejected(error) =>
        HonestFailAfter(server, s, call.id, was.(authStatus := Errored), "auth", error);
    }
  }

  lemma HonestOpenAfterCancel(server: Server, s: State, id: Source)
    requires HonestStore(server, s)
    ensures HonestStore(server, SettleOpenAfterCancel(s, id))
  {
    var was := RecordOf(s, id);
    HonestBump(server, s, Key(id, OnAuth));
    HonestTouch(server, Bump(s, Key(id, OnAuth)), id,
                was.(authStatus := Loading, signInError := None, errors := was.errors - {"auth"}));
  }

  lemma HonestSignOut(server: Server, s: State, id: Source, outcome: Outcome)
    requires HonestStore(server, s)
    ensures HonestStore(server, SettleSignOut(s, id, outcome))
  {
    match outcome {
      case SessionIs(session) =>
        HonestReset(server, s, id, EMPTY_BROWSE.(session := Some(session), sessionStatus := Ready));
      case Rejected(error) => HonestFail(server, s, id, "auth", error);
      case _ =>
    }
  }

  lemma HonestSettle(server: Server, s: State, k: nat, outcome: Outcome)
    requires HonestStore(server, s) && k in s.calls && !s.calls[k].PageCall? && Fits(s.calls[k], outcome)
    ensures HonestStore(server, SettleStep(s, k, outcome))
  {
    var rest := DropCall(s, k);
    HonestDrop(server, s, k);
    match s.calls[k] {
      case SessionCall(_, _, _) => HonestSession(server, rest, s.calls[k], outcome);
      case SectionStart(id, query) =>
        HonestLoadSession(server, rest, id, Some(query));
        HonestSearchSection(server, rest, id, query, None);
      case CancelCall(_, _, _, _) => HonestCancelled(server, rest, s.calls[k], outcome);
      case OpenAfterCancel(id) => HonestOpenAfterCancel(server, rest, id);
      case OpenCall(_, _) => HonestOpen(server, rest, s.calls[k], outcome);
      case LateCancelCall(_, _) =>
      case PollTimer(_, _, _) =>
      case PollCall(_, _, _) => HonestPoll(server, rest, s.calls[k], outcome);
      case SignOutCall(id) => HonestSignOut(server, rest, id, outcome);
    }
  }

  lemma HonestStep(server: Server, s: State, e: Event)
    requires HonestStore(server, s) && Possible(s, e) && Serves(server, s, e)
    ensures HonestStore(server, Step(s, e))
  {
    if !e.Settle? {
      HonestAction(server, s, e);
    } else if s.calls[e.call].PageCall? {
      HonestDrop(server, s, e.call);
      HonestPage(server, DropCall(s, e.call), s.calls[e.call], e.outcome);
    } else {
      HonestSettle(server, s, e.call, e.outcome);
    }
  }

  /** Every page of the list was asked for by this very feed. */
  ghost predicate OfFeed(l: Listing, feed: Feed) {
    forall i | 0 <= i < |l.pages| :: l.pages[i].request.feed == feed
  }

  /** The server has a page behind each of the first `n - 1`, so none of the first `n` comes twice. */
  ghost predicate GoesFar(server: Server, id: Source, feed: Feed, n: nat, first: Option<string> := None) {
    forall k | 0 < k < n :: Truthy(Walk(server, id, feed, k, first).cursor)
  }

  /** A linked chain of honest pages is a walk along the server's cursors that never starts over. */
  lemma {:induction false} ChainIsWalk(server: Server, l: Listing, id: Source, feed: Feed)
    requires Chain(l, id, feed) && OfFeed(l, feed) && Honest(server, l) && l.pages != []
    ensures var first := l.pages[0].request.cursor;
            && first in {None, if feed.Section? then Some("") else None}
            && l.tracks == Walk(server, id, feed, |l.pages|, first).tracks
            && l.cursor == Walk(server, id, feed, |l.pages|, first).cursor
            && GoesFar(server, id, feed, |l.pages|, first)
    decreases |l.pages|
  {
    var n := |l.pages| - 1;
    var shorter := Listing(Concat(l.pages[..n]), End(l.pages[..n]), l.pages[..n]);
    if n == 0 {
      assert l.pages[..0] == [];
    } else {
      assert GoesOn(l.pages, n);
      forall i | 0 < i < n ensures GoesOn(l.pages[..n], i) {
        assert GoesOn(l.pages, i);
      }
      ChainIsWalk(server, shorter, id, feed);
    }
  }

  /** Nothing yet, or the first `n` pages of the feed, one behind the other, with the cursor where they stop. */
  ghost predicate IsWalk(server: Server, l: Listing, id: Source, feed: Feed, first: Option<string> := None) {
    || (l.tracks == [] && l.cursor == None)
    || exists n: nat :: IsWalkOf(server, l, id, feed, n, first)
  }

  ghost predicate IsWalkOf(server: Server, l: Listing, id: Source, feed: Feed, n: nat, first: Option<string>) {
    && n > 0 && GoesFar(server, id, feed, n, first)
    && l.tracks == Walk(server, id, feed, n, first).tracks && l.cursor == Walk(server, id, feed, n, first).cursor
  }

  lemma HonestChainIsWalk(server: Server, l: Listing, id: Source, feed: Feed)
    requires Chain(l, id, feed) && Honest(server, l) && (feed.Search? ==> OfFeed(l, feed))
    ensures IsWalk(server, l, id, feed) || (feed.Section? && IsWalk(server, l, id, feed, Some("")))
  {
    if l.pages != [] {
      ChainIsWalk(server, l, id, feed);
      assert IsWalkOf(server, l, id, feed, |l.pages|, l.pages[0].request.cursor);
    }
  }

  /** A walk does not go past a page without a cursor: of such a feed it is all the pages up to that one, or fewer. */
  lemma WalkEnds(server: Server, id: Source, feed: Feed, last: nat, l: Listing, first: Option<string>)
    requires 0 < last && IsWalk(server, l, id, feed, first)
    ensures Truthy(Walk(server, id, feed, last, first).cursor)
         || (l.tracks == [] && l.cursor == None)
         || exists n: nat :: n <= last && IsWalkOf(server, l, id, feed, n, first)
  {
    if !(l.tracks == [] && l.cursor == None) {
      var n: nat :| IsWalkOf(server, l, id, feed, n, first);
      assert last < n ==> Truthy(Walk(server, id, feed, last, first).cursor);
    }
  }
}
