/** What each action of the browsing store, and each settlement, promises the caller of a store in good order. */
module CatalogStoreFacts {
  import opened Basics
  import opened CatalogBrowse
  import opened CatalogBrowseProofs
  import opened CatalogBrowseRuns
  import opened CatalogBrowseSections
  import opened CatalogBrowseTheorems

  /** No list of any source has changed, except perhaps the search results of one. */
  ghost predicate ListsStay(s: State, t: State, searched: Option<Source>) {
    forall id: Source, feed: Feed :: !(feed.Search? && searched == Some(id)) ==>
      ListingIn(RecordOf(t, id), feed) == ListingIn(RecordOf(s, id), feed)
  }

  /** The request is out and the newest of its kind. */
  ghost predicate Asked(s: State, t: State, request: Request, more: bool) {
    && Live(t, KeyOf(request), s.nextId)
    && t.calls[s.nextId].PageCall? && t.calls[s.nextId].request == request && t.calls[s.nextId].more == more
  }

  /** No sign-in loop of the source is alive. */
  ghost predicate NoLoop(t: State, id: Source) {
    forall k :: !InLoop(t, id, k)
  }

  // ---------- sources and lists ----------

  /** `after` has the source in every place that held it before. */
  ghost predicate Replaces(list: seq<SourceInfo>, after: seq<SourceInfo>, source: SourceInfo) {
    |after| == |list| && forall i | 0 <= i < |list| :: after[i] == if list[i].id == source.id then source else list[i]
  }

  lemma {:induction false} FoundAmong(list: seq<SourceInfo>, after: seq<SourceInfo>, source: SourceInfo)
    requires Replaces(list, after, source) && FindSource(list, source.id).Some?
    ensures FindSource(after, source.id) == Some(source)
    decreases |list|
  {
    if list[0].id != source.id {
      FoundAmong(list[1..], after[1..], source);
    }
  }

  lemma {:induction false} FoundLast(list: seq<SourceInfo>, source: SourceInfo)
    requires FindSource(list, source.id).None?
    ensures FindSource(list + [source], source.id) == Some(source)
    decreases |list|
  {
    if list != [] {
      FoundLast(list[1..], source);
      assert (list + [source])[1..] == list[1..] + [source];
    }
  }

  lemma SourceKnown(s: State, source: SourceInfo)
    ensures FindSource(ApplySourceStep(s, source).sources, source.id) == Some(source)
  {
    var after := ApplySourceStep(s, source).sources;
    if FindSource(s.sources, source.id).Some? {
      assert Replaces(s.sources, after, source);
      FoundAmong(s.sources, after, source);
    } else {
      FoundLast(s.sources, source);
    }
  }

  lemma SourceApplied(s: State, source: SourceInfo)
    requires Tokens(s)
    ensures var t := ApplySourceStep(s, source);
            if Goes(s, source) then Silent(t, source.id) && RecordOf(t, source.id) == EMPTY_BROWSE
            else t == s.(sources := t.sources)
  {
    if Goes(s, source) {
      ApplySilences(s, source);
    }
  }

  /** No list changes when a record is replaced by one with the same lists. */
  lemma PatchStays(s: State, id: Source, b: Browse)
    requires forall feed :: ListingIn(b, feed) == ListingIn(RecordOf(s, id), feed)
    ensures ListsStay(s, Patch(s, id, b), None)
  {
  }

  lemma SameLists(b: Browse, c: Browse)
    requires b.liked == c.liked && b.details == c.details && b.search == c.search
    ensures forall feed :: ListingIn(b, feed) == ListingIn(c, feed)
  {
  }

  lemma SendAsks(s: State, id: Source, feed: Feed, more: bool, before: Listing, cursor: Option<string>, b: Browse)
    ensures Asked(s, SendPage(s, id, feed, more, before, cursor, b), Request(id, feed, cursor, Epoch(s, id)), more)
    ensures SendPage(s, id, feed, more, before, cursor, b).records == s.records[id := b]
  {
  }

  /** Sending a request changes no list of the source when its new record has the same lists. */
  lemma SendStays(s: State, id: Source, feed: Feed, more: bool, before: Listing, cursor: Option<string>, b: Browse)
    requires var was := RecordOf(s, id); b.liked == was.liked && b.details == was.details && b.search == was.search
    ensures ListsStay(s, SendPage(s, id, feed, more, before, cursor, b), None)
  {
    SameLists(b, RecordOf(s, id));
    SendAsks(s, id, feed, more, before, cursor, b);
    RecordsStay(s, SendPage(s, id, feed, more, before, cursor, b), id, b, None);
  }

  lemma RecordsStay(s: State, t: State, id: Source, b: Browse, searched: Option<Source>)
    requires t.records == s.records[id := b]
    requires forall feed: Feed :: !(feed.Search? && searched == Some(id)) ==>
               ListingIn(b, feed) == ListingIn(RecordOf(s, id), feed)
    ensures ListsStay(s, t, searched)
  {
    forall other: Source, feed: Feed | !(feed.Search? && searched == Some(other))
      ensures ListingIn(RecordOf(t, other), feed) == ListingIn(RecordOf(s, other), feed)
    {
      assert RecordOf(t, other) == if other == id then b else RecordOf(s, other);
    }
  }

  /** The liked list is asked for unless it is loading or has no more. */
  ghost predicate LikedAsked(s: State, t: State, more: bool) {
    var id := ActiveId(s); var was := RecordOf(s, id);
    if was.likedStatus == Loading || (more && !Truthy(was.liked.cursor)) then t == s
    else Asked(s, t, Request(id, Liked, if more then was.liked.cursor else None, Epoch(s, id)), more)
  }

  lemma LikedLoaded(s: State, more: bool)
    ensures ListsStay(s, LoadLikedStep(s, more), None) && LikedAsked(s, LoadLikedStep(s, more), more)
  {
    var was := RecordOf(s, ActiveId(s));
    var cursor := if more then was.liked.cursor else None;
    var b := was.(likedStatus := Loading, likedLoadingMore := more);
    SendAsks(s, ActiveId(s), Liked, more, was.liked, cursor, b);
    SendStays(s, ActiveId(s), Liked, more, was.liked, cursor, b);
  }

  /** The cursor a playlist goes on from. */
  function PlaylistCursor(s: State, remote: Remote): Option<string> {
    var was := RecordOf(s, ActiveId(s));
    if remote in was.details then was.details[remote].cursor else None
  }

  /** The playlist is shown as it is cached, and asked for if it is shown loading. */
  ghost predicate PlaylistShown(s: State, t: State, remote: Remote, more: bool) {
    var id := ActiveId(s); var b := RecordOf(t, id);
    if more && !Truthy(PlaylistCursor(s, remote)) then t == s
    else
      && b.selected == Some(remote) && b.detail == Opened(b)
      && (b.detailStatus == Loading ==>
            var cursor := if more then PlaylistCursor(s, remote) else None;
            Asked(s, t, Request(id, Playlist(remote), cursor, Epoch(s, id)), more))
  }

  /** The three ways opening a playlist goes: nothing to do, the cached one shown, or a request. */
  lemma PlaylistCases(s: State, remote: Remote, more: bool)
    ensures var id := ActiveId(s); var was := RecordOf(s, id); var t := OpenPlaylistStep(s, remote, more);
            var before := if remote in was.details then was.details[remote] else NO_LISTING;
            if more && !Truthy(PlaylistCursor(s, remote)) then t == s
            else if remote in was.details && !more && was.detailStatus != Errored
            then t == Patch(s, id, Shown(was, remote, more)) && Shown(was, remote, more).detailStatus != Loading
            else t == SendPage(s, id, Playlist(remote), more, before, if more then PlaylistCursor(s, remote) else None,
                               Shown(was, remote, more))
  {
  }

  lemma PlaylistOpened(s: State, remote: Remote, more: bool)
    ensures ListsStay(s, OpenPlaylistStep(s, remote, more), None)
    ensures PlaylistShown(s, OpenPlaylistStep(s, remote, more), remote, more)
  {
    PlaylistCases(s, remote, more);
    var id := ActiveId(s);
    var was := RecordOf(s, id);
    var b := Shown(was, remote, more);
    var before := if remote in was.details then was.details[remote] else NO_LISTING;
    var cursor := if more then PlaylistCursor(s, remote) else None;
    SameLists(was, b);
    if remote in was.details && !more && was.detailStatus != Errored {
      PatchStays(s, id, b);
      assert RecordOf(Patch(s, id, b), id) == b;
    } else {
      SendAsks(s, id, Playlist(remote), more, before, cursor, b);
      SendStays(s, id, Playlist(remote), more, before, cursor, b);
      assert RecordOf(SendPage(s, id, Playlist(remote), more, before, cursor, b), id) == b;
    }
  }

  lemma PlaylistClosed(s: State)
    ensures var t := ClosePlaylistStep(s); var b := RecordOf(t, ActiveId(s));
            ListsStay(s, t, None) && t.calls == s.calls && b.selected.None? && b.detail.None? && b.detailStatus == Idle
  {
    var was := RecordOf(s, ActiveId(s));
    SameLists(was, was.(detail := None, selected := None, detailStatus := Idle));
    PatchStays(s, ActiveId(s), was.(detail := None, selected := None, detailStatus := Idle));
  }

  lemma SearchCleared(s: State)
    requires Tokens(s)
    ensures var t := ClearSearchStep(s); var id := ActiveId(s);
            && ListsStay(s, t, Some(id)) && RecordOf(t, id).search == NO_LISTING
            && (forall k :: !Live(t, Key(id, OnSearch), k))
  {
    var id := ActiveId(s);
    var b := RecordOf(s, id).(searchQuery := "", search := NO_LISTING, searchStatus := Idle);
    RecordsStay(s, ClearSearchStep(s), id, b, Some(id));
  }

  /** The search is asked for, unless more was wanted of one that is loading or has no more. */
  ghost predicate SearchAsked(s: State, t: State, query: string, more: bool) {
    var id := ActiveId(s); var was := RecordOf(s, id);
    if more && (!Truthy(was.search.cursor) || was.searchStatus == Loading) then t == s
    else
      && Asked(s, t, Request(id, Search(query), if more then was.search.cursor else None, Epoch(s, id)), more)
      && RecordOf(t, id).searchQuery == query && (!more ==> RecordOf(t, id).search == NO_LISTING)
  }

  lemma SearchRun(s: State, query: string, more: bool)
    requires Trim(query) != ""
    ensures ListsStay(s, RunSearchStep(s, query, more), if more then None else Some(ActiveId(s)))
    ensures SearchAsked(s, RunSearchStep(s, query, more), Trim(query), more)
  {
    var id := ActiveId(s);
    var was := RecordOf(s, id);
    var cursor := if more then was.search.cursor else None;
    var b := Searching(was, Trim(query), more);
    SendAsks(s, id, Search(Trim(query)), more, was.search, cursor, b);
    RecordsStay(s, SendPage(s, id, Search(Trim(query)), more, was.search, cursor, b), id, b,
                if more then None else Some(id));
  }

  /** An empty query clears the results; any other is asked for, and for more of it the results stay. */
  ghost predicate SearchNoted(s: State, t: State, query: string, more: bool) {
    if Trim(query) == "" then t == ClearSearchStep(s)
    else SearchAsked(s, t, Trim(query), more) && ListsStay(s, t, if more then None else Some(ActiveId(s)))
  }

  lemma SearchRunEither(s: State, query: string, more: bool)
    ensures SearchNoted(s, RunSearchStep(s, query, more), query, more)
  {
    if Trim(query) != "" {
      SearchRun(s, query, more);
    }
  }

  lemma SearchedEverywhere(s: State, query: string)
    requires Trim(query) != ""
    ensures var t := SearchEverywhereStep(s, query);
            && t.global.query == Trim(query)
            && (forall id :: id in t.global.sections <==> id in Candidates(s.sources))
            && (forall id :: id in t.global.sections ==> Waits(t, id) && OwedOk(t, id))
  {
    var trimmed := Trim(query);
    var ids := Candidates(s.sources);
    StartsGlobal(s.(view := SearchView, active := None, top := EMPTY_BROWSE,
                    global := GlobalSearch(trimmed, map id | id in ids :: SectionState(Loading, NO_LISTING))),
                 ids, trimmed);
    forall id ensures OwedOk(SearchEverywhereStep(s, query), id) {
      RestartOwes(s, query, id);
    }
  }

  /** There is something to ask for in the section: more of its list, or again what failed. */
  predicate GoesOnIn(s: State, id: Source) {
    && id in s.global.sections && s.global.sections[id].status != Loading
    && (Truthy(s.global.sections[id].listing.cursor) || s.global.sections[id].status == Errored)
  }

  /** The section keeps its list; it is asked for the page, or shown signed out if its source may not search. */
  ghost predicate SectionNoted(s: State, t: State, id: Source, cursor: Option<string>)
    requires id in s.global.sections
  {
    && id in t.global.sections && t.global.sections[id].listing == s.global.sections[id].listing
    && (if MaySearch(FindSource(s.sources, id), RecordOf(s, id).session)
        then && t.global.sections[id].status == Loading
             && Asked(s, t, Request(id, Section(s.global.query), cursor, Epoch(s, id)), Truthy(cursor))
        else t.global.sections[id].status == SignedOut)
  }

  lemma SectionAsked(s: State, id: Source, cursor: Option<string>)
    requires id in s.global.sections
    ensures SectionNoted(s, SearchSectionStep(s, id, s.global.query, cursor), id, cursor)
  {
    if MaySearch(FindSource(s.sources, id), RecordOf(s, id).session) {
      SearchSectionShape(s, id, s.global.query, cursor);
      SectionSent(s, id, cursor);
    }
  }

  lemma SectionSent(s: State, id: Source, cursor: Option<string>)
    requires MaySearch(FindSource(s.sources, id), RecordOf(s, id).session)
    ensures Asked(s, SearchSectionStep(s, id, s.global.query, cursor),
                  Request(id, Section(s.global.query), cursor, Epoch(s, id)), Truthy(cursor))
  {
    SearchSectionShape(s, id, s.global.query, cursor);
  }

  /** What a settled page call did: nothing if it is superseded, else its page is in the list, first or further. */
  ghost predicate PageNoted(s: State, t: State, k: nat, outcome: Outcome)
    requires k in s.calls && s.calls[k].PageCall?
  {
    var call := s.calls[k]; var r := call.request;
    && (!Live(s, KeyOf(r), k) ==> Unseen(s, t))
    && (Live(s, KeyOf(r), k) && outcome.PageIs? && !r.feed.Section? ==>
          var before := ListingIn(RecordOf(s, r.id), r.feed);
          var after := ListingIn(RecordOf(t, r.id), r.feed);
          && (call.more ==> before.Some? && r.cursor == before.value.cursor)
          && after.Some? && after.value.cursor == outcome.page.next
          && after.value.tracks == (if call.more then before.value.tracks else []) + outcome.page.tracks)
    && (Live(s, KeyOf(r), k) && outcome.Rejected? && outcome.error.expired ==> Silent(t, r.id))
  }

  lemma PageSettled(s: State, k: nat, outcome: Outcome)
    requires Inv(s) && k in s.calls && s.calls[k].PageCall? && Fits(s.calls[k], outcome)
    ensures PageNoted(s, SettleStep(s, k, outcome), k, outcome)
  {
    if !Live(s, KeyOf(s.calls[k].request), k) {
      SupersededPageIsSilent(s, k, outcome);
    } else if outcome.PageIs? {
      if !s.calls[k].request.feed.Section? {
        PageCallFacts(s, k);
        LiveReplyShape(s, k, outcome.page);
      }
    } else if outcome.error.expired {
      ResetIsSilent(s, k, outcome);
    }
  }

  lemma ResetIsSilent(s: State, k: nat, outcome: Outcome)
    requires Inv(s) && k in s.calls && Fits(s.calls[k], outcome) && Resets(s, Settle(k, outcome), IdOf(s.calls[k]))
    ensures Silent(SettleStep(s, k, outcome), IdOf(s.calls[k]))
  {
    ResetExactlyWhen(s, Settle(k, outcome), IdOf(s.calls[k]));
  }

  lemma PartStarted(s: State, k: nat)
    requires Inv(s) && k in s.calls && s.calls[k].SectionStart? && s.calls[k].query == s.global.query
    ensures OwedOk(SettleStep(s, k, Done), s.calls[k].id)
  {
    var id := s.calls[k].id;
    assert IsPart(s.calls[k], id, s.global.query);
    OwnPart(s, k, id);
  }

  // ---------- sessions and sign-in ----------

  lemma SessionAsked(s: State, id: Source, thenSearch: Option<string>)
    ensures var t := LoadSessionStep(s, id, thenSearch);
            && ListsStay(s, t, None) && RecordOf(t, id).sessionStatus == Loading
            && Live(t, Key(id, OnSession), s.nextId) && t.calls[s.nextId].SessionCall?
  {
    SameLists(RecordOf(s, id), RecordOf(s, id).(sessionStatus := Loading));
    RecordsStay(s, LoadSessionStep(s, id, thenSearch), id, RecordOf(s, id).(sessionStatus := Loading), None);
  }

  /** What a settled session call did: nothing if it is superseded, else it brought the session. */
  ghost predicate SessionNoted(s: State, t: State, k: nat, outcome: Outcome)
    requires k in s.calls && s.calls[k].SessionCall?
  {
    var call := s.calls[k];
    && (!Live(s, Key(call.id, OnSession), k) ==> Unseen(s, t))
    && (Live(s, Key(call.id, OnSession), k) && outcome.SessionIs? ==>
          RecordOf(t, call.id).session == Some(outcome.session))
    && (Live(s, Key(call.id, OnSession), k) && Expires(outcome) ==> Silent(t, call.id))
    && (call.thenSearch.Some? ==> PartOut(t, call.id, call.thenSearch.value))
  }

  lemma SessionSettles(s: State, k: nat, outcome: Outcome)
    requires Inv(s) && k in s.calls && s.calls[k].SessionCall? && Fits(s.calls[k], outcome)
    ensures SessionNoted(s, SettleStep(s, k, outcome), k, outcome)
  {
    var call := s.calls[k];
    if !Live(s, Key(call.id, OnSession), k) {
      SupersededIsSilent(s, k, outcome);
    } else if Expires(outcome) {
      ResetIsSilent(s, k, outcome);
    } else if outcome.SessionIs? {
      SessionBrought(s, k, outcome.session);
    }
    if call.thenSearch.Some? {
      PartFollows(s, k, outcome);
    }
  }

  lemma SessionBrought(s: State, k: nat, session: Session)
    requires k in s.calls && s.calls[k].SessionCall? && Live(s, Key(s.calls[k].id, OnSession), k)
    ensures RecordOf(SettleStep(s, k, SessionIs(session)), s.calls[k].id).session == Some(session)
  {
  }

  lemma PartFollows(s: State, k: nat, outcome: Outcome)
    requires k in s.calls && s.calls[k].SessionCall? && s.calls[k].thenSearch.Some?
    ensures PartOut(SettleStep(s, k, outcome), s.calls[k].id, s.calls[k].thenSearch.value)
  {
    var call := s.calls[k];
    var settled := SettleSession(DropCall(s, k), call.(thenSearch := None), outcome);
    var start := SectionStart(call.id, call.thenSearch.value);
    assert SettleStep(s, k, outcome) == AddCall(settled, start);
    assert settled.nextId in AddCall(settled, start).calls && IsPart(start, call.id, call.thenSearch.value);
  }

  /** Taking the sign-in token and clearing the timer ends the loop of the source. */
  lemma BumpEndsLoop(s: State, id: Source)
    requires Tokens(s) && AuthOk(s, id, RecordOf(s, id))
    ensures NoLoop(ClearTimer(Bump(s, Key(id, OnAuth)), id), id)
  {
    var t := ClearTimer(Bump(s, Key(id, OnAuth)), id);
    assert forall k <- s.calls :: s.calls[k].PollTimer? && s.calls[k].id == id ==> s.authTimers[id] == k;
    forall k ensures !InLoop(t, id, k) {
    }
  }

  lemma NoLoopPatched(s: State, id: Source, b: Browse)
    requires NoLoop(s, id)
    ensures NoLoop(Patch(s, id, b), id)
  {
    forall k ensures !InLoop(Patch(s, id, b), id, k) {
      assert !InLoop(s, id, k);
    }
  }

  lemma NoLoopAdded(s: State, id: Source, call: Call)
    requires NoLoop(s, id) && !call.PollTimer? && !call.PollCall? && !call.OpenCall?
    ensures NoLoop(AddCall(s, call), id)
  {
    forall k ensures !InLoop(AddCall(s, call), id, k) {
      assert !InLoop(s, id, k);
    }
  }

  /** What cancelling a sign-in sends: the cancellation of the stored challenge, or without one what waits for it. */
  ghost predicate CancelSent(s: State, t: State, id: Source, thenOpen: bool) {
    match RecordOf(s, id).challenge
    case Some(challenge) =>
      && Live(t, Key(id, OnAuth), s.nextId) && t.calls[s.nextId].CancelCall?
      && t.calls[s.nextId].challenge == challenge && t.calls[s.nextId].thenOpen == thenOpen
    case None => thenOpen ==> s.nextId in t.calls && t.calls[s.nextId] == OpenAfterCancel(id)
  }

  lemma CancelIsSent(s: State, id: Source, thenOpen: bool)
    ensures CancelSent(s, CancelSignInStep(s, id, thenOpen), id, thenOpen)
  {
  }

  lemma SignInCancelled(s: State, id: Source, thenOpen: bool)
    requires Inv(s)
    ensures NoLoop(CancelSignInStep(s, id, thenOpen), id)
            && CancelSent(s, CancelSignInStep(s, id, thenOpen), id, thenOpen)
  {
    CancelIsSent(s, id, thenOpen);
    var cleared := ClearTimer(Bump(s, Key(id, OnAuth)), id);
    var record := RecordOf(s, id);
    assert RecordOk(s, id, record);
    BumpEndsLoop(s, id);
    if record.challenge.None? {
      NoLoopPatched(cleared, id, record.(authStatus := Idle));
      NoLoopAdded(Patch(cleared, id, record.(authStatus := Idle)), id, OpenAfterCancel(id));
    } else {
      NoLoopAdded(cleared, id, CancelCall(id, record.challenge.value, Generation(cleared, Key(id, OnAuth)), thenOpen));
    }
  }

  /**
  What a settled cancellation did: nothing if it is superseded; a cancelled challenge is
  gone; what waits comes next.
  */
  ghost predicate CancelNoted(s: State, t: State, k: nat, outcome: Outcome)
    requires k in s.calls && s.calls[k].CancelCall?
  {
    var call := s.calls[k];
    && (!Live(s, Key(call.id, OnAuth), k) ==> Unseen(s, t))
    && (Live(s, Key(call.id, OnAuth), k) && outcome.Done? ==> RecordOf(t, call.id).challenge != Some(call.challenge))
    && (call.thenOpen ==> exists j :: j in t.calls && t.calls[j] == OpenAfterCancel(call.id))
  }

  lemma CancelSettles(s: State, k: nat, outcome: Outcome)
    requires k in s.calls && s.calls[k].CancelCall? && Fits(s.calls[k], outcome)
    ensures CancelNoted(s, SettleStep(s, k, outcome), k, outcome)
  {
    var call := s.calls[k];
    var t := SettleStep(s, k, outcome);
    if !Live(s, Key(call.id, OnAuth), k) {
      SupersededIsSilent(s, k, outcome);
    } else if outcome.Done? {
      ChallengeCancelled(s, k);
    }
    if call.thenOpen {
      var settled := CancelSettled(DropCall(s, k), call, outcome);
      assert t == AddCall(settled, OpenAfterCancel(call.id));
      assert t.calls[settled.nextId] == OpenAfterCancel(call.id);
    }
  }

  lemma ChallengeCancelled(s: State, k: nat)
    requires k in s.calls && s.calls[k].CancelCall? && Live(s, Key(s.calls[k].id, OnAuth), k)
    ensures RecordOf(SettleStep(s, k, Done), s.calls[k].id).challenge != Some(s.calls[k].challenge)
  {
  }

  /** Opening waits for no stored challenge: with one it does nothing, without one it is the loop from now on. */
  ghost predicate OpeningNoted(s: State, t: State, k: nat)
    requires k in s.calls && s.calls[k].OpenAfterCancel?
  {
    var id := s.calls[k].id;
    if RecordOf(s, id).challenge.Some? then Unseen(s, t)
    else InLoop(t, id, s.nextId) && t.calls[s.nextId].OpenCall? && RecordOf(t, id).authStatus == Loading
  }

  lemma OpeningFollows(s: State, k: nat)
    requires k in s.calls && s.calls[k].OpenAfterCancel?
    ensures OpeningNoted(s, SettleStep(s, k, Done), k)
  {
  }

  /** What a settled opening did: a challenge that comes in time is stored and polled for, a late one is cancelled. */
  ghost predicate OpenNoted(s: State, t: State, k: nat, outcome: Outcome)
    requires k in s.calls && s.calls[k].OpenCall?
  {
    var id := s.calls[k].id;
    && (!Live(s, Key(id, OnAuth), k) ==>
          && Unseen(s, t)
          && (outcome.ChallengeIs? ==> t.calls == (s.calls - {k})[s.nextId := LateCancelCall(id, outcome.challenge)]))
    && (Live(s, Key(id, OnAuth), k) && outcome.ChallengeIs? ==>
          && RecordOf(t, id).challenge == Some(outcome.challenge)
          && InLoop(t, id, s.nextId) && t.calls[s.nextId].PollTimer?
          && t.calls[s.nextId].challenge == outcome.challenge)
    && (Live(s, Key(id, OnAuth), k) && Expires(outcome) ==> Silent(t, id))
  }

  lemma OpenSettles(s: State, k: nat, outcome: Outcome)
    requires Inv(s) && k in s.calls && s.calls[k].OpenCall? && Fits(s.calls[k], outcome)
    ensures OpenNoted(s, SettleStep(s, k, outcome), k, outcome)
  {
    if !Live(s, Key(s.calls[k].id, OnAuth), k) {
      SupersededIsSilent(s, k, outcome);
      if outcome.ChallengeIs? {
        LateChallengeShape(s, k, outcome.challenge);
      }
    } else if outcome.ChallengeIs? {
      ChallengeStored(s, k, outcome.challenge);
    } else if outcome.error.expired {
      ResetIsSilent(s, k, outcome);
    }
  }

  lemma ChallengeStored(s: State, k: nat, challenge: Challenge)
    requires k in s.calls && s.calls[k].OpenCall? && Live(s, Key(s.calls[k].id, OnAuth), k)
    ensures var id := s.calls[k].id; var t := SettleStep(s, k, ChallengeIs(challenge));
            && RecordOf(t, id).challenge == Some(challenge)
            && InLoop(t, id, s.nextId) && t.calls[s.nextId].PollTimer? && t.calls[s.nextId].challenge == challenge
  {
  }

  /** An armed timer always polls: whatever would outdate it or its challenge has cleared it. */
  lemma TimerPolls(s: State, k: nat)
    requires Inv(s) && k in s.calls && s.calls[k].PollTimer?
    ensures var call := s.calls[k]; var t := SettleStep(s, k, Done);
            && Unseen(s, t)
            && t.calls == (s.calls - {k})[s.nextId := PollCall(call.id, call.challenge, call.token)]
            && RecordOf(t, call.id).challenge == Some(call.challenge) && InLoop(t, call.id, s.nextId)
  {
    TimerFacts(s, k);
    TimerShape(s, k);
  }

  lemma TimerFacts(s: State, k: nat)
    requires Inv(s) && k in s.calls && s.calls[k].PollTimer?
    ensures Live(s, Key(s.calls[k].id, OnAuth), k)
    ensures RecordOf(s, s.calls[k].id).challenge == Some(s.calls[k].challenge)
  {
    assert RecordOk(s, s.calls[k].id, RecordOf(s, s.calls[k].id));
  }

  lemma TimerShape(s: State, k: nat)
    requires k in s.calls && s.calls[k].PollTimer? && Live(s, Key(s.calls[k].id, OnAuth), k)
    requires RecordOf(s, s.calls[k].id).challenge == Some(s.calls[k].challenge)
    ensures var call := s.calls[k];
            SettleStep(s, k, Done) == AddCall(DropCall(s, k), PollCall(call.id, call.challenge, call.token))
  {
  }

  /** The poll brings a session. */
  predicate Brings(outcome: Outcome) {
    outcome.PollIs? && outcome.result.Complete? && outcome.result.session.Some?
  }

  /** What a settled poll did: nothing if it is superseded; a pending one waits again; any other ends the loop. */
  ghost predicate PollNoted(s: State, t: State, k: nat, outcome: Outcome)
    requires k in s.calls && s.calls[k].PollCall?
  {
    var call := s.calls[k];
    && (!Live(s, Key(call.id, OnAuth), k) ==> Unseen(s, t))
    && (Live(s, Key(call.id, OnAuth), k) ==>
          if outcome == PollIs(Pending)
          then InLoop(t, call.id, s.nextId) && t.calls[s.nextId] == PollTimer(call.id, call.challenge, call.token)
          else NoLoop(t, call.id))
    && (Live(s, Key(call.id, OnAuth), k) && Brings(outcome) && Accepts(s, call.id) ==>
          SignedIn(s, t, call.id, outcome.result.session.value))
  }

  /** The source starts over with the session, and nothing it had out before is listened to. */
  ghost predicate SignedIn(s: State, t: State, id: Source, session: Session) {
    && RecordOf(t, id) == EMPTY_BROWSE.(session := Some(session), sessionStatus := Ready)
    && Silent(t, id) && Epoch(t, id) == Epoch(s, id) + 1
  }

  lemma PollPends(s: State, k: nat)
    requires k in s.calls && s.calls[k].PollCall? && Live(s, Key(s.calls[k].id, OnAuth), k)
    ensures var call := s.calls[k]; var t := SettleStep(s, k, PollIs(Pending));
            InLoop(t, call.id, s.nextId) && t.calls[s.nextId] == PollTimer(call.id, call.challenge, call.token)
  {
  }

  /** The only part of a loop whose poll is out is that poll, so dropping it leaves none. */
  lemma PollWasTheLoop(s: State, k: nat)
    requires Inv(s) && k in s.calls && s.calls[k].PollCall? && Live(s, Key(s.calls[k].id, OnAuth), k)
    ensures NoLoop(DropCall(s, k), s.calls[k].id)
  {
    var id := s.calls[k].id;
    assert RecordOk(s, id, RecordOf(s, id));
    forall j ensures !InLoop(DropCall(s, k), id, j) {
      if j != k && InLoop(s, id, j) {
        assert false;
      }
    }
  }

  lemma PollEndsLoop(s: State, k: nat, outcome: Outcome)
    requires Inv(s) && k in s.calls && s.calls[k].PollCall? && Live(s, Key(s.calls[k].id, OnAuth), k)
    requires Fits(s.calls[k], outcome) && outcome != PollIs(Pending)
    ensures NoLoop(SettleStep(s, k, outcome), s.calls[k].id)
  {
    PollWasTheLoop(s, k);
    DropTokens(s, k);
    EndedStaysEnded(DropCall(s, k), s.calls[k], outcome);
  }

  lemma EndedStaysEnded(s: State, call: Call, outcome: Outcome)
    requires Tokens(s) && call.PollCall? && NoLoop(s, call.id) && Fits(call, outcome) && outcome != PollIs(Pending)
    ensures NoLoop(SettlePoll(s, call, outcome), call.id)
  {
    var id := call.id;
    var was := RecordOf(s, id);
    match outcome {
      case PollIs(Complete(Some(session))) =>
        NoLoopReset(s, id, EMPTY_BROWSE.(session := Some(session), sessionStatus := Ready));
      case PollIs(Complete(None)) =>
        NoLoopPatched(s, id, was.(challenge := None, errors := was.errors["auth" := "complete"]));
      case PollIs(Other(state)) => NoLoopPatched(s, id, was.(challenge := None, errors := was.errors["auth" := state]));
      case Rejected(error) =>
        NoLoopPatched(s, id, was.(challenge := None, authStatus := Idle));
        NoLoopFailed(Patch(s, id, was.(challenge := None, authStatus := Idle)), id, "auth", error);
    }
  }

  lemma NoLoopReset(s: State, id: Source, b: Browse)
    requires Tokens(s) && NoLoop(s, id)
    ensures NoLoop(Reset(s, id, b), id)
  {
    var t := Reset(s, id, b);
    forall k ensures !InLoop(t, id, k) {
      assert !InLoop(s, id, k);
    }
  }

  lemma NoLoopFailed(s: State, id: Source, slot: string, error: Error)
    requires Tokens(s) && NoLoop(s, id)
    ensures NoLoop(Fail(s, id, slot, error), id)
  {
    var was := RecordOf(s, id);
    NoLoopPatched(s, id, was.(errors := was.errors[slot := error.message]));
    NoLoopReset(Patch(s, id, was.(errors := was.errors[slot := error.message])), id,
                EMPTY_BROWSE.(sessionStatus := Ready, session := Some(Session(false, true))));
  }

  lemma PollSettles(s: State, k: nat, outcome: Outcome)
    requires Inv(s) && k in s.calls && s.calls[k].PollCall? && Fits(s.calls[k], outcome)
    ensures PollNoted(s, SettleStep(s, k, outcome), k, outcome)
  {
    var id := s.calls[k].id;
    if !Live(s, Key(id, OnAuth), k) {
      SupersededIsSilent(s, k, outcome);
    } else if outcome == PollIs(Pending) {
      PollPends(s, k);
    } else {
      PollEnds(s, k, outcome);
    }
  }

  lemma PollEnds(s: State, k: nat, outcome: Outcome)
    requires Inv(s) && k in s.calls && s.calls[k].PollCall? && Fits(s.calls[k], outcome)
    requires Live(s, Key(s.calls[k].id, OnAuth), k) && outcome != PollIs(Pending)
    ensures PollNoted(s, SettleStep(s, k, outcome), k, outcome)
  {
    var id := s.calls[k].id;
    PollEndsLoop(s, k, outcome);
    if Brings(outcome) && Accepts(s, id) {
      PollSignsIn(s, k, outcome);
    }
  }

  lemma PollSignsIn(s: State, k: nat, outcome: Outcome)
    requires Inv(s) && k in s.calls && s.calls[k].PollCall? && Fits(s.calls[k], outcome)
    requires Live(s, Key(s.calls[k].id, OnAuth), k) && Brings(outcome) && Accepts(s, s.calls[k].id)
    ensures SignedIn(s, SettleStep(s, k, outcome), s.calls[k].id, outcome.result.session.value)
  {
    PollAccepts(s, k, outcome);
    ResetIsSilent(s, k, outcome);
    PollShape(s, k, outcome);
    SignInShape(DropCall(s, k), s.calls[k].id, outcome.result.session.value);
  }

  lemma PollAccepts(s: State, k: nat, outcome: Outcome)
    requires k in s.calls && s.calls[k].PollCall? && Live(s, Key(s.calls[k].id, OnAuth), k)
    requires Brings(outcome) && Accepts(s, s.calls[k].id)
    ensures Resets(s, Settle(k, outcome), s.calls[k].id) && Accepts(DropCall(s, k), s.calls[k].id)
  {
  }

  lemma PollShape(s: State, k: nat, outcome: Outcome)
    requires k in s.calls && s.calls[k].PollCall? && Live(s, Key(s.calls[k].id, OnAuth), k) && Brings(outcome)
    ensures SettleStep(s, k, outcome)
         == AcceptSignInStep(DropCall(s, k), s.calls[k].id, outcome.result.session.value)
  {
  }

  lemma SignInShape(s: State, id: Source, session: Session)
    requires Accepts(s, id)
    ensures var t := AcceptSignInStep(s, id, session);
            && RecordOf(t, id) == EMPTY_BROWSE.(session := Some(session), sessionStatus := Ready)
            && Epoch(t, id) == Epoch(s, id) + 1
  {
  }

  lemma SignInAccepted(s: State, id: Source, session: Session)
    requires Tokens(s)
    ensures var t := AcceptSignInStep(s, id, session);
            if Accepts(s, id) then SignedIn(s, t, id, session) else t == s
  {
    if Accepts(s, id) {
      AcceptSilences(s, id, session);
      SignInShape(s, id, session);
    }
  }

  /** A sign-in error is shown for the stored challenge of a usable source, and ends its loop. */
  ghost predicate ErrorNoted(s: State, t: State, id: Source, challenge: Challenge, message: string) {
    if !Usable(FindSource(s.sources, id)) || RecordOf(s, id).challenge != Some(challenge) then t == s
    else && NoLoop(t, id) && RecordOf(t, id).challenge.None? && RecordOf(t, id).signInError == Some(message)
         && RecordOf(t, id).authStatus == Errored
  }

  lemma SignInFailed(s: State, id: Source, challenge: Challenge, message: string)
    requires Inv(s)
    ensures ErrorNoted(s, SetSignInErrorStep(s, id, challenge, message), id, challenge, message)
  {
    var record := RecordOf(s, id);
    assert RecordOk(s, id, record);
    BumpEndsLoop(s, id);
    NoLoopForgotten(Bump(s, Key(id, OnAuth)), id);
    NoLoopPatched(ForgetTimer(Bump(s, Key(id, OnAuth)), id), id,
                  record.(signInError := Some(message), challenge := None, authStatus := Errored));
  }

  lemma NoLoopForgotten(s: State, id: Source)
    requires NoLoop(ClearTimer(s, id), id)
    ensures NoLoop(ForgetTimer(s, id), id)
  {
    forall k ensures !InLoop(ForgetTimer(s, id), id, k) {
      assert !InLoop(ClearTimer(s, id), id, k);
    }
  }

  lemma SignedOutSettled(s: State, k: nat, outcome: Outcome)
    requires Inv(s) && k in s.calls && s.calls[k].SignOutCall? && Fits(s.calls[k], outcome)
    ensures var id := s.calls[k].id; var t := SettleStep(s, k, outcome);
            && (outcome.SessionIs? || outcome.error.expired ==> Silent(t, id))
            && (outcome.SessionIs? ==>
                  RecordOf(t, id) == EMPTY_BROWSE.(session := Some(outcome.session), sessionStatus := Ready))
  {
    if outcome.SessionIs? || outcome.error.expired {
      ResetIsSilent(s, k, outcome);
    }
  }
}
