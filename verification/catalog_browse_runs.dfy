/** Every step of the browsing store keeps its invariant, so every run does. */
module CatalogBrowseRuns {
  import opened Basics
  import opened CatalogBrowse
  import opened CatalogBrowseProofs

  // ---------- lists grow by linked pages ----------

  lemma ExtendLinks(call: Call, page: Page)
    requires call.PageCall? && PageCallOk(call)
    ensures var r := call.request; var l := Extend(call.before, call.more, Reply(r, page));
            && Chain(l, r.id, r.feed)
            && (!r.feed.Section? ==> FromEpoch(l, r.epoch))
  {
    var r := call.request;
    var reply := Reply(r, page);
    var l := Extend(call.before, call.more, reply);
    var n := |l.pages| - 1;
    assert l.pages[n] == reply;
    assert l.pages[..n] == if call.more then call.before.pages else [];
    assert Concat(l.pages) == Concat(l.pages[..n]) + page.tracks;
    if call.more {
      LinkMore(call.before.pages, reply, r.id, r.feed);
    }
  }

  lemma LinkMore(pages: seq<Reply>, reply: Reply, id: Source, feed: Feed)
    requires Linked(pages, id, feed) && pages != []
    requires reply.request.id == id && SameList(feed, reply.request.feed)
    requires Truthy(End(pages)) && reply.request.cursor == End(pages)
    ensures Linked(pages + [reply], id, feed)
  {
    var all := pages + [reply];
    forall i | 0 < i < |all| ensures GoesOn(all, i) {
      if i < |pages| {
        assert GoesOn(pages, i);
      }
    }
  }

  // ---------- steps that only change what is shown ----------

  predicate SameRecords(s: State, t: State) {
    && s.generations == t.generations && s.records == t.records && s.authTimers == t.authTimers
    && s.calls == t.calls && s.nextId == t.nextId && s.epochs == t.epochs
  }

  lemma ViewKeeps(s: State, skip: Option<Key>, t: State)
    requires InvBut(s, skip) && SameRecords(s, t) && SectionsOk(t) && TopOk(t)
    ensures InvBut(t, skip)
  {
    forall id ensures RecordOk(t, id, RecordOf(t, id), skip) {
      AlikeKeeps(s, t, id, RecordOf(s, id), skip);
    }
  }

  lemma SectionsSet(s: State, id: Source, query: string, section: SectionState)
    requires SectionsOk(s)
    requires Chain(section.listing, id, Section(query)) || section.listing == SectionOf(s, id).listing
    ensures SectionsOk(SetSection(s, id, query, section))
  {
  }

  lemma SetSectionView(s: State, id: Source, query: string, section: SectionState)
    ensures SameRecords(s, SetSection(s, id, query, section))
    ensures TopOk(s) ==> TopOk(SetSection(s, id, query, section))
  {
  }

  lemma SetSectionKeeps(s: State, skip: Option<Key>, id: Source, query: string, section: SectionState)
    requires InvBut(s, skip)
    requires Chain(section.listing, id, Section(query)) || section.listing == SectionOf(s, id).listing
    ensures InvBut(SetSection(s, id, query, section), skip)
  {
    SectionsSet(s, id, query, section);
    SetSectionView(s, id, query, section);
    ViewKeeps(s, skip, SetSection(s, id, query, section));
  }

  // ---------- requests for pages ----------

  /** What a record must satisfy to be patched in together with a new request for `feed`. */
  ghost predicate MaySend(s: State, id: Source, feed: Feed, more: bool, before: Listing, cursor: Option<string>,
                          b: Browse) {
    && !feed.Section?
    && (more ==> Truthy(cursor) && cursor == before.cursor && Chain(before, id, feed)
                 && FromEpoch(before, Epoch(s, id)))
    && (!more ==> cursor == None)
    && ListingsOk(s, id, b) && b.challenge == RecordOf(s, id).challenge
    && (if feed.Search? then feed.query == b.searchQuery else b.searchQuery == RecordOf(s, id).searchQuery)
    && (b.detailStatus == Loading ==> b.selected.Some?)
    && (forall key :: Spins(id, b, key) && key != Key(id, OperationOf(feed)) ==> Spins(id, RecordOf(s, id), key))
    && (more ==> ListingIn(b, feed) == Some(before))
    && (forall other :: OperationOf(other) != OperationOf(feed) ==>
          ListingIn(b, other) == ListingIn(RecordOf(s, id), other))
  }

  lemma SendPageMay(s: State, id: Source, feed: Feed, more: bool, before: Listing, cursor: Option<string>, b: Browse)
    requires LoadingOk(s, id, RecordOf(s, id), None) && MaySend(s, id, feed, more, before, cursor, b)
    ensures var key := Key(id, OperationOf(feed));
            MayLaunch(s, key, b,
              Some(PageCall(Request(id, feed, cursor, Epoch(s, id)), more, before, Generation(s, key) + 1)))
  {
  }

  lemma SendPageKeeps(s: State, id: Source, feed: Feed, more: bool, before: Listing, cursor: Option<string>, b: Browse)
    requires Inv(s) && MaySend(s, id, feed, more, before, cursor, b)
    ensures Inv(SendPage(s, id, feed, more, before, cursor, b))
  {
    var key := Key(id, OperationOf(feed));
    var call := PageCall(Request(id, feed, cursor, Epoch(s, id)), more, before, Generation(s, key) + 1);
    SendPageShape(s, id, feed, more, before, cursor, b);
    PageLaunched(s, id, feed, more, before, cursor, b);
    SameState(Launch(s, key, b, Some(call)), SendPage(s, id, feed, more, before, cursor, b));
  }

  lemma SameState(s: State, t: State)
    requires s == t && Inv(s)
    ensures Inv(t)
  {
  }

  lemma SendPageShape(s: State, id: Source, feed: Feed, more: bool, before: Listing, cursor: Option<string>, b: Browse)
    ensures var key := Key(id, OperationOf(feed));
            var call := PageCall(Request(id, feed, cursor, Epoch(s, id)), more, before, Generation(s, key) + 1);
            SendPage(s, id, feed, more, before, cursor, b) == Launch(s, key, b, Some(call))
  {
  }

  lemma PageLaunched(s: State, id: Source, feed: Feed, more: bool, before: Listing, cursor: Option<string>, b: Browse)
    requires Inv(s) && MaySend(s, id, feed, more, before, cursor, b)
    ensures var key := Key(id, OperationOf(feed));
            var call := PageCall(Request(id, feed, cursor, Epoch(s, id)), more, before, Generation(s, key) + 1);
            Inv(Launch(s, key, b, Some(call)))
  {
    assert RecordOk(s, id, RecordOf(s, id));
    SendPageMay(s, id, feed, more, before, cursor, b);
    var key := Key(id, OperationOf(feed));
    LaunchKeeps(s, None, key, b,
                Some(PageCall(Request(id, feed, cursor, Epoch(s, id)), more, before, Generation(s, key) + 1)));
  }

  lemma LikedMay(s: State, id: Source, more: bool)
    requires RecordOk(s, id, RecordOf(s, id)) && (more ==> Truthy(RecordOf(s, id).liked.cursor))
    ensures var was := RecordOf(s, id);
            MaySend(s, id, Liked, more, was.liked, if more then was.liked.cursor else None,
                    was.(likedStatus := Loading, likedLoadingMore := more))
  {
  }

  lemma LoadLikedKeeps(s: State, more: bool)
    requires Inv(s)
    ensures Inv(LoadLikedStep(s, more))
  {
    var id := ActiveId(s);
    var was := RecordOf(s, id);
    if !(was.likedStatus == Loading || (more && !Truthy(was.liked.cursor))) {
      LikedMay(s, id, more);
      SendPageKeeps(s, id, Liked, more, was.liked, if more then was.liked.cursor else None,
                    was.(likedStatus := Loading, likedLoadingMore := more));
    }
  }

  /** The record that shows playlist `remote`, cached or still to come. */
  function Shown(was: Browse, remote: Remote, more: bool): Browse {
    var cached := if remote in was.details then Some(was.details[remote]) else None;
    was.(selected := Some(remote), detail := cached,
         detailStatus := if cached.Some? && !more then Ready else Loading)
  }

  lemma ShownRecord(s: State, id: Source, remote: Remote)
    requires RecordOk(s, id, RecordOf(s, id)) && remote in RecordOf(s, id).details
    ensures RecordOk(s, id, Shown(RecordOf(s, id), remote, false))
  {
    var was := RecordOf(s, id);
    var b := Shown(was, remote, false);
    forall key | Spins(id, b, key) ensures Spins(id, was, key) {
    }
    assert ListsSame(was, b);
    assert RequestsOk(s, id, b);
    assert AuthOk(s, id, b);
  }

  predicate ListsSame(was: Browse, b: Browse) {
    b.liked == was.liked && b.details == was.details && b.search == was.search && b.searchQuery == was.searchQuery
  }

  lemma OpenPlaylistMay(s: State, id: Source, remote: Remote, more: bool)
    requires RecordOk(s, id, RecordOf(s, id))
    requires var was := RecordOf(s, id);
             more ==> remote in was.details && Truthy(was.details[remote].cursor)
    ensures var was := RecordOf(s, id);
            var before := if remote in was.details then was.details[remote] else NO_LISTING;
            MaySend(s, id, Playlist(remote), more, before, if more then before.cursor else None,
                    Shown(was, remote, more))
  {
    var was := RecordOf(s, id);
    var b := Shown(was, remote, more);
    forall key | Spins(id, b, key) && key != Key(id, OnPlaylist(remote)) ensures Spins(id, was, key) {
    }
  }

  lemma OpenPlaylistKeeps(s: State, remote: Remote, more: bool)
    requires Inv(s)
    ensures Inv(OpenPlaylistStep(s, remote, more))
  {
    var id := ActiveId(s);
    var was := RecordOf(s, id);
    assert RecordOk(s, id, was);
    if !(more && !(remote in was.details && Truthy(was.details[remote].cursor))) {
      var before := if remote in was.details then was.details[remote] else NO_LISTING;
      OpenPlaylistMay(s, id, remote, more);
      if remote in was.details && !more && was.detailStatus != Errored {
        ShownRecord(s, id, remote);
        PatchKeeps(s, None, id, Shown(was, remote, more));
      } else {
        SendPageKeeps(s, id, Playlist(remote), more, before, if more then before.cursor else None,
                      Shown(was, remote, more));
      }
    }
  }

  /** The record without its search results. */
  function Cleared(was: Browse): Browse {
    was.(searchQuery := "", search := NO_LISTING, searchStatus := Idle)
  }

  lemma ClearedQuiet(id: Source, was: Browse)
    ensures forall key :: Spins(id, Cleared(was), key) ==> Spins(id, was, key)
    ensures Cleared(was).challenge == was.challenge && Cleared(was).detailStatus == was.detailStatus
    ensures Cleared(was).selected == was.selected && !Spins(id, Cleared(was), Key(id, OnSearch))
    ensures forall feed: Feed :: !feed.Search? ==> ListingIn(Cleared(was), feed) == ListingIn(was, feed)
  {
  }

  lemma ClearedListings(s: State, id: Source, was: Browse)
    requires ListingsOk(s, id, was)
    ensures ListingsOk(s, id, Cleared(was))
  {
  }

  lemma ClearedMay(s: State, id: Source)
    requires RecordOk(s, id, RecordOf(s, id))
    ensures MayLaunch(s, Key(id, OnSearch), Cleared(RecordOf(s, id)), None)
  {
    ClearedListings(s, id, RecordOf(s, id));
    ClearedQuiet(id, RecordOf(s, id));
  }

  lemma ClearSearchKeeps(s: State)
    requires Inv(s)
    ensures Inv(ClearSearchStep(s))
  {
    var id := ActiveId(s);
    ClearedMay(s, id);
    LaunchKeeps(s, None, Key(id, OnSearch), Cleared(RecordOf(s, id)), None);
  }

  /** The record that waits for the results of `query`. */
  function Searching(was: Browse, query: string, more: bool): Browse {
    was.(searchQuery := query, searchStatus := Loading, search := if more then was.search else NO_LISTING)
  }

  lemma RunSearchMay(s: State, id: Source, query: string, more: bool)
    requires RecordOk(s, id, RecordOf(s, id))
    requires more ==> Truthy(RecordOf(s, id).search.cursor)
    ensures var was := RecordOf(s, id);
            MaySend(s, id, Search(query), more, was.search, if more then was.search.cursor else None,
                    Searching(was, query, more))
  {
  }

  lemma RunSearchKeeps(s: State, query: string, more: bool)
    requires Inv(s)
    ensures Inv(RunSearchStep(s, query, more))
  {
    var id := ActiveId(s);
    var was := RecordOf(s, id);
    var trimmed := Trim(query);
    assert RecordOk(s, id, was);
    if trimmed == "" {
      ClearSearchKeeps(s);
    } else if !(more && (!Truthy(was.search.cursor) || was.searchStatus == Loading)) {
      RunSearchMay(s, id, trimmed, more);
      SendPageKeeps(s, id, Search(trimmed), more, was.search, if more then was.search.cursor else None,
                    Searching(was, trimmed, more));
    }
  }

  lemma SearchSectionMay(s: State, id: Source, query: string, cursor: Option<string>)
    requires SectionsOk(s) && RecordOk(s, id, RecordOf(s, id))
    requires cursor == None || cursor == Some("")
             || (s.global.query == query && id in s.global.sections && cursor == s.global.sections[id].listing.cursor)
    ensures var key := Key(id, OnSection);
            MayLaunch(s, key, RecordOf(s, id),
              Some(PageCall(Request(id, Section(query), cursor, Epoch(s, id)), Truthy(cursor), SectionOf(s, id).listing,
                            Generation(s, key) + 1)))
  {
  }

  /** Patching in the record a source already has changes nothing. */
  lemma RestoreRecord(s: State, plain: State, shown: State, id: Source, other: Source)
    requires plain.records == s.records && Inv(shown) && shown == Patch(plain, id, RecordOf(s, id))
    ensures RecordOk(plain, other, RecordOf(plain, other))
  {
    assert RecordOk(shown, other, RecordOf(shown, other));
    AlikeKeeps(shown, plain, other, RecordOf(shown, other), None);
  }

  lemma RestoreStore(s: State, plain: State, shown: State, id: Source)
    requires TopOk(s) && plain.records == s.records && plain.top == s.top && plain.view == s.view
             && plain.active == s.active
    requires StoreOk(shown) && shown == Patch(plain, id, RecordOf(s, id))
    ensures StoreOk(plain)
  {
    assert TopOk(plain) && SectionsOk(plain);
  }

  lemma RestoreKeeps(s: State, plain: State, shown: State, id: Source)
    requires TopOk(s) && plain.records == s.records && plain.top == s.top && plain.view == s.view
             && plain.active == s.active
    requires Inv(shown) && shown == Patch(plain, id, RecordOf(s, id))
    ensures Inv(plain)
  {
    RestoreStore(s, plain, shown, id);
    forall other ensures RecordOk(plain, other, RecordOf(plain, other)) {
      RestoreRecord(s, plain, shown, id, other);
    }
  }

  /** The request of a section's page. */
  function SectionCall(s: State, id: Source, query: string, cursor: Option<string>): Call {
    PageCall(Request(id, Section(query), cursor, Epoch(s, id)), Truthy(cursor), SectionOf(s, id).listing,
             Generation(s, Key(id, OnSection)) + 1)
  }

  lemma SectionRequest(s: State, id: Source, query: string, cursor: Option<string>)
    requires Inv(s)
    requires cursor == None || cursor == Some("")
             || (s.global.query == query && id in s.global.sections && cursor == s.global.sections[id].listing.cursor)
    ensures Inv(AddCall(Bump(s, Key(id, OnSection)), SectionCall(s, id, query, cursor)))
  {
    SectionLaunched(s, id, query, cursor);
    LaunchedRestored(s, Key(id, OnSection), SectionCall(s, id, query, cursor));
  }

  /** A request that leaves the record alone may be sent without patching the record in again. */
  lemma LaunchedRestored(s: State, key: Key, call: Call)
    requires TopOk(s) && Inv(Launch(s, key, RecordOf(s, key.id), Some(call)))
    ensures Inv(AddCall(Bump(s, key), call))
  {
    RestoreKeeps(s, AddCall(Bump(s, key), call), Launch(s, key, RecordOf(s, key.id), Some(call)), key.id);
  }

  lemma SectionLaunched(s: State, id: Source, query: string, cursor: Option<string>)
    requires Inv(s)
    requires cursor == None || cursor == Some("")
             || (s.global.query == query && id in s.global.sections && cursor == s.global.sections[id].listing.cursor)
    ensures Inv(Launch(s, Key(id, OnSection), RecordOf(s, id), Some(SectionCall(s, id, query, cursor))))
  {
    var b := RecordOf(s, id);
    assert RecordOk(s, id, b);
    SearchSectionMay(s, id, query, cursor);
    LaunchKeeps(s, None, Key(id, OnSection), b, Some(SectionCall(s, id, query, cursor)));
  }

  /** The section's spinner and its request touch different fields. */
  lemma SearchSectionShape(s: State, id: Source, query: string, cursor: Option<string>)
    requires MaySearch(FindSource(s.sources, id), RecordOf(s, id).session)
    ensures SearchSectionStep(s, id, query, cursor)
         == SetSection(AddCall(Bump(s, Key(id, OnSection)), SectionCall(s, id, query, cursor)), id, query,
                       SectionOf(s, id).(status := Loading))
  {
  }

  lemma SearchSectionKeeps(s: State, id: Source, query: string, cursor: Option<string>)
    requires Inv(s)
    requires cursor == None || cursor == Some("")
             || (s.global.query == query && id in s.global.sections && cursor == s.global.sections[id].listing.cursor)
    ensures Inv(SearchSectionStep(s, id, query, cursor))
  {
    if MaySearch(FindSource(s.sources, id), RecordOf(s, id).session) {
      SearchSectionSent(s, id, query, cursor);
    } else {
      SetSectionKeeps(s, None, id, query, SectionOf(s, id).(status := SignedOut));
    }
  }

  lemma SearchSectionSent(s: State, id: Source, query: string, cursor: Option<string>)
    requires Inv(s) && MaySearch(FindSource(s.sources, id), RecordOf(s, id).session)
    requires cursor == None || cursor == Some("")
             || (s.global.query == query && id in s.global.sections && cursor == s.global.sections[id].listing.cursor)
    ensures Inv(SearchSectionStep(s, id, query, cursor))
  {
    SearchSectionShape(s, id, query, cursor);
    SectionSent(s, id, query, cursor);
  }

  lemma SectionSent(s: State, id: Source, query: string, cursor: Option<string>)
    requires Inv(s)
    requires cursor == None || cursor == Some("")
             || (s.global.query == query && id in s.global.sections && cursor == s.global.sections[id].listing.cursor)
    ensures Inv(SetSection(AddCall(Bump(s, Key(id, OnSection)), SectionCall(s, id, query, cursor)), id, query,
                           SectionOf(s, id).(status := Loading)))
  {
    SectionRequest(s, id, query, cursor);
    SectionUntouched(s, Key(id, OnSection), SectionCall(s, id, query, cursor), id);
    SectionSpins(AddCall(Bump(s, Key(id, OnSection)), SectionCall(s, id, query, cursor)), id, query);
  }

  lemma SectionSpins(s: State, id: Source, query: string)
    requires Inv(s)
    ensures Inv(SetSection(s, id, query, SectionOf(s, id).(status := Loading)))
  {
    SetSectionKeeps(s, None, id, query, SectionOf(s, id).(status := Loading));
  }

  lemma SectionUntouched(s: State, key: Key, call: Call, id: Source)
    ensures SectionOf(AddCall(Bump(s, key), call), id) == SectionOf(s, id)
  {
  }

  lemma SearchMoreInKeeps(s: State, id: Source)
    requires Inv(s)
    ensures Inv(SearchMoreInStep(s, id))
  {
    if id in s.global.sections {
      SearchSectionKeeps(s, id, s.global.query, s.global.sections[id].listing.cursor);
    }
  }

  lemma AddStartsKeeps(s: State, ids: seq<Source>, query: string)
    requires Inv(s)
    ensures Inv(AddStarts(s, ids, query))
    decreases |ids|
  {
    if ids != [] {
      PlainKeeps(s, SectionStart(ids[0], query));
      AddStartsKeeps(AddCall(s, SectionStart(ids[0], query)), ids[1..], query);
    }
  }

  lemma SearchEverywhereKeeps(s: State, query: string)
    requires Inv(s)
    ensures Inv(SearchEverywhereStep(s, query))
  {
    var trimmed := Trim(query);
    var ids := Candidates(s.sources);
    var shown := s.(view := SearchView, active := None, top := EMPTY_BROWSE,
                    global := GlobalSearch(trimmed, map id | id in ids :: SectionState(Loading, NO_LISTING)));
    if trimmed != "" {
      ViewKeeps(s, None, shown);
      AddStartsKeeps(shown, ids, trimmed);
    }
  }

  // ---------- sessions ----------

  lemma LoadSessionMay(s: State, id: Source, thenSearch: Option<string>)
    requires RecordOk(s, id, RecordOf(s, id))
    ensures var key := Key(id, OnSession);
            MayLaunch(s, key, RecordOf(s, id).(sessionStatus := Loading),
                      Some(SessionCall(id, Generation(s, key) + 1, thenSearch)))
  {
    var b := RecordOf(s, id).(sessionStatus := Loading);
    forall key | Spins(id, b, key) && key != Key(id, OnSession) ensures Awaited(s, key) {
      assert Spins(id, RecordOf(s, id), key);
    }
  }

  lemma LoadSessionKeeps(s: State, id: Source, thenSearch: Option<string>)
    requires Inv(s)
    ensures Inv(LoadSessionStep(s, id, thenSearch))
  {
    var key := Key(id, OnSession);
    assert RecordOk(s, id, RecordOf(s, id));
    LoadSessionMay(s, id, thenSearch);
    LaunchKeeps(s, None, key, RecordOf(s, id).(sessionStatus := Loading),
                Some(SessionCall(id, Generation(s, key) + 1, thenSearch)));
  }

  // ---------- sign-in ----------

  lemma ContinueOpenKeeps(s: State, id: Source, thenOpen: bool)
    requires Inv(s)
    ensures Inv(ContinueOpen(s, id, thenOpen))
  {
    if thenOpen {
      PlainKeeps(s, OpenAfterCancel(id));
    }
  }

  /** Taking the sign-in token away from whoever holds it, without a new holder that polls or opens. */
  lemma AuthMay(s: State, id: Source, b: Browse, call: Option<Call>)
    requires RecordOk(s, id, RecordOf(s, id)) && Unarmed(s, id)
    requires call.Some? ==> call.value.CancelCall? && call.value.id == id
                            && call.value.token == Generation(s, Key(id, OnAuth)) + 1
    requires ListingsOk(s, id, b) && b.searchQuery == RecordOf(s, id).searchQuery && b.authStatus != Loading
    requires b.detailStatus == RecordOf(s, id).detailStatus && b.selected == RecordOf(s, id).selected
    requires forall key :: Spins(id, b, key) ==> Spins(id, RecordOf(s, id), key)
    requires b.liked == RecordOf(s, id).liked && b.details == RecordOf(s, id).details
             && b.search == RecordOf(s, id).search
    ensures MayLaunch(s, Key(id, OnAuth), b, call)
  {
  }

  /** While a challenge is stored no sign-in is being opened. */
  lemma ChallengeStopsOpening(s: State, id: Source)
    requires RecordOk(s, id, RecordOf(s, id)) && RecordOf(s, id).challenge.Some?
    ensures RecordOf(s, id).authStatus != Loading
  {
    assert !Spins(id, RecordOf(s, id), Key(id, OnAuth));
  }

  lemma CancelIdleShape(s: State, id: Source, thenOpen: bool)
    requires RecordOf(s, id).challenge.None?
    ensures CancelSignInStep(s, id, thenOpen)
         == ContinueOpen(Launch(ClearTimer(s, id), Key(id, OnAuth), RecordOf(s, id).(authStatus := Idle), None), id,
                         thenOpen)
  {
    BumpAfterClearing(s, id);
  }

  lemma CancelSentShape(s: State, id: Source, thenOpen: bool)
    requires RecordOf(s, id).challenge.Some?
    ensures CancelSignInStep(s, id, thenOpen)
         == AddCall(Bump(ClearTimer(s, id), Key(id, OnAuth)),
                    CancelCall(id, RecordOf(s, id).challenge.value, Generation(s, Key(id, OnAuth)) + 1, thenOpen))
  {
    BumpAfterClearing(s, id);
  }

  lemma CancelIdleKeeps(c: State, id: Source)
    requires Inv(c) && Unarmed(c, id)
    ensures Inv(Launch(c, Key(id, OnAuth), RecordOf(c, id).(authStatus := Idle), None))
  {
    var b := RecordOf(c, id);
    assert RecordOk(c, id, b);
    AuthMay(c, id, b.(authStatus := Idle), None);
    LaunchKeeps(c, None, Key(id, OnAuth), b.(authStatus := Idle), None);
  }

  lemma CancelSentKeeps(c: State, id: Source, call: Call)
    requires Inv(c) && Unarmed(c, id) && RecordOf(c, id).challenge.Some?
    requires call.CancelCall? && call.id == id && call.token == Generation(c, Key(id, OnAuth)) + 1
    ensures Inv(AddCall(Bump(c, Key(id, OnAuth)), call))
  {
    var key := Key(id, OnAuth);
    var b := RecordOf(c, id);
    assert Inv(Launch(c, key, b, Some(call))) by {
      assert RecordOk(c, id, b);
      ChallengeStopsOpening(c, id);
      AuthMay(c, id, b, Some(call));
      LaunchKeeps(c, None, key, b, Some(call));
    }
    LaunchedRestored(c, key, call);
  }

  lemma CancelSignInKeeps(s: State, id: Source, thenOpen: bool)
    requires Inv(s)
    ensures Inv(CancelSignInStep(s, id, thenOpen))
  {
    var c := ClearTimer(s, id);
    var b := RecordOf(s, id);
    ClearKeeps(s, id);
    if b.challenge.None? {
      CancelIdleShape(s, id, thenOpen);
      CancelIdleKeeps(c, id);
      ContinueOpenKeeps(Launch(c, Key(id, OnAuth), b.(authStatus := Idle), None), id, thenOpen);
    } else {
      CancelSentShape(s, id, thenOpen);
      CancelSentKeeps(c, id, CancelCall(id, b.challenge.value, Generation(s, Key(id, OnAuth)) + 1, thenOpen));
    }
  }

  lemma NoChallengeUnarmed(s: State, id: Source)
    requires AuthOk(s, id, RecordOf(s, id)) && RecordOf(s, id).challenge.None?
    ensures Unarmed(s, id)
  {
  }

  lemma OpenAfterCancelMay(s: State, id: Source, b: Browse)
    requires RecordOk(s, id, RecordOf(s, id)) && RecordOf(s, id).challenge.None?
    requires b == RecordOf(s, id).(authStatus := Loading, signInError := None, errors := b.errors)
    ensures MayLaunch(s, Key(id, OnAuth), b, Some(OpenCall(id, Generation(s, Key(id, OnAuth)) + 1)))
  {
    NoChallengeUnarmed(s, id);
    forall key | Spins(id, b, key) && key != Key(id, OnAuth) ensures Awaited(s, key) {
      assert Spins(id, RecordOf(s, id), key);
    }
  }

  lemma OpenAfterCancelKeeps(s: State, id: Source)
    requires Inv(s)
    ensures Inv(SettleOpenAfterCancel(s, id))
  {
    var was := RecordOf(s, id);
    if was.challenge.None? {
      var key := Key(id, OnAuth);
      var b := was.(authStatus := Loading, signInError := None, errors := was.errors - {"auth"});
      assert RecordOk(s, id, was);
      OpenAfterCancelMay(s, id, b);
      LaunchKeeps(s, None, key, b, Some(OpenCall(id, Generation(s, key) + 1)));
    }
  }

  lemma AcceptSignInKeeps(s: State, id: Source, session: Session)
    requires Inv(s)
    ensures Inv(AcceptSignInStep(s, id, session))
  {
    if AcceptSignInStep(s, id, session) != s {
      ResetKeeps(s, id, EMPTY_BROWSE.(session := Some(session), sessionStatus := Ready));
    }
  }

  lemma SignInEnded(f: State, id: Source, message: string)
    requires Inv(f) && Unarmed(f, id) && RecordOf(f, id).challenge.Some?
    ensures var b := RecordOf(f, id).(signInError := Some(message), challenge := None, authStatus := Errored);
            Inv(Launch(f, Key(id, OnAuth), b, None))
  {
    var b := RecordOf(f, id).(signInError := Some(message), challenge := None, authStatus := Errored);
    assert RecordOk(f, id, RecordOf(f, id));
    AuthMay(f, id, b, None);
    LaunchKeeps(f, None, Key(id, OnAuth), b, None);
  }

  lemma SetSignInErrorKeeps(s: State, id: Source, challenge: Challenge, message: string)
    requires Inv(s)
    ensures Inv(SetSignInErrorStep(s, id, challenge, message))
  {
    var was := RecordOf(s, id);
    if Usable(FindSource(s.sources, id)) && was.challenge == Some(challenge) {
      ForgetKeeps(s, id);
      SignInEnded(ForgetTimer(s, id), id, message);
      SetSignInErrorShape(s, id, was.(signInError := Some(message), challenge := None, authStatus := Errored));
    }
  }

  lemma BumpAfterClearing(s: State, id: Source)
    ensures ClearTimer(Bump(s, Key(id, OnAuth)), id) == Bump(ClearTimer(s, id), Key(id, OnAuth))
  {
  }

  lemma BumpAfterForgetting(s: State, id: Source)
    ensures ForgetTimer(Bump(s, Key(id, OnAuth)), id) == Bump(ForgetTimer(s, id), Key(id, OnAuth))
  {
    BumpAfterClearing(s, id);
  }

  lemma SetSignInErrorShape(s: State, id: Source, b: Browse)
    ensures Patch(ForgetTimer(Bump(s, Key(id, OnAuth)), id), id, b)
            == Launch(ForgetTimer(s, id), Key(id, OnAuth), b, None)
  {
    BumpAfterForgetting(s, id);
  }

  lemma SourcesKeep(s: State, sources: seq<SourceInfo>)
    requires Inv(s)
    ensures Inv(s.(sources := sources))
  {
    ViewKeeps(s, None, s.(sources := sources));
  }

  lemma ApplySourceKeeps(s: State, source: SourceInfo)
    requires Inv(s)
    ensures Inv(ApplySourceStep(s, source))
  {
    ResetKeeps(s, source.id, EMPTY_BROWSE);
    SourcesKeep(s, ApplySourceStep(s, source).sources);
    SourcesKeep(Reset(s, source.id, EMPTY_BROWSE), ApplySourceStep(s, source).sources);
  }

  // ---------- settlements ----------

  /** The answered record: its own feed's spinner is down, the rest is as it was. */
  lemma AnsweredRecord(s: State, skip: Option<Key>, id: Source, b: Browse)
    requires RecordOk(s, id, RecordOf(s, id), skip)
    requires ListingsOk(s, id, b)
    requires b.searchQuery == RecordOf(s, id).searchQuery && b.challenge == RecordOf(s, id).challenge
    requires b.detailStatus == Loading ==>
               RecordOf(s, id).detailStatus == Loading && b.selected == RecordOf(s, id).selected
    requires forall key :: Spins(id, b, key) ==> Spins(id, RecordOf(s, id), key) && skip != Some(key)
    requires skip.Some? ==> Unheld(s, skip.value)
    requires forall feed :: skip != Some(Key(id, OperationOf(feed))) ==>
               ListingIn(b, feed) == ListingIn(RecordOf(s, id), feed)
    ensures RecordOk(s, id, b)
  {
    assert RequestsOk(s, id, b) by {
      forall k <- s.calls | s.calls[k].PageCall? && IdOf(s.calls[k]) == id && Live(s, KeyOf(s.calls[k].request), k)
        ensures skip != Some(KeyOf(s.calls[k].request))
      {
      }
    }
  }

  /** What the invariant says of a page call that is about to settle. */
  lemma PageCallFacts(s: State, k: nat)
    requires Inv(s) && k in s.calls && s.calls[k].PageCall?
    ensures PageCallOk(s.calls[k])
    ensures var r := s.calls[k].request;
            Live(s, KeyOf(r), k) ==>
              && r.epoch == Epoch(s, r.id)
              && (r.feed.Search? ==> r.feed.query == RecordOf(s, r.id).searchQuery)
              && (s.calls[k].more && !r.feed.Section? ==>
                    ListingIn(RecordOf(s, r.id), r.feed) == Some(s.calls[k].before))
              && Covers(s, k) == Some(KeyOf(r))
  {
    var r := s.calls[k].request;
    assert RecordOk(s, r.id, RecordOf(s, r.id));
  }

  /** The record after the live request for `feed` brought `listing`. */
  function Answered(was: Browse, feed: Feed, listing: Listing): Browse {
    match feed
    case Liked => was.(liked := listing, likedStatus := Ready, likedLoadingMore := false)
    case Playlist(remote) =>
      var kept := was.(details := was.details[remote := listing]);
      if was.selected == Some(remote) then kept.(detail := Some(listing), detailStatus := Ready) else kept
    case Search(_) => was.(search := listing, searchStatus := Ready)
    case Section(_) => was
  }

  lemma OpenedAfter(was: Browse, remote: Remote, listing: Listing)
    requires was.detail == Opened(was)
    ensures var b := Answered(was, Playlist(remote), listing);
            && b.detail == Opened(b) && b.details == was.details[remote := listing]
            && b.liked == was.liked && b.search == was.search && b.searchQuery == was.searchQuery
  {
  }

  lemma PlaylistListings(s: State, id: Source, was: Browse, remote: Remote, listing: Listing)
    requires ListingsOk(s, id, was) && ListingOk(listing, id, Playlist(remote), Epoch(s, id))
    ensures ListingsOk(s, id, Answered(was, Playlist(remote), listing))
  {
    var b := Answered(was, Playlist(remote), listing);
    OpenedAfter(was, remote, listing);
    forall r <- b.details ensures ListingOk(b.details[r], id, Playlist(r), Epoch(s, id)) {
      if r != remote {
        assert ListingOk(was.details[r], id, Playlist(r), Epoch(s, id));
      }
    }
  }

  lemma LikedListings(s: State, id: Source, was: Browse, listing: Listing)
    requires ListingsOk(s, id, was) && ListingOk(listing, id, Liked, Epoch(s, id))
    ensures ListingsOk(s, id, Answered(was, Liked, listing))
  {
    var b := Answered(was, Liked, listing);
    assert b.details == was.details && b.search == was.search && b.detail == was.detail && b.selected == was.selected;
  }

  lemma SearchListings(s: State, id: Source, was: Browse, listing: Listing)
    requires ListingsOk(s, id, was) && ListingOk(listing, id, Search(was.searchQuery), Epoch(s, id))
    ensures ListingsOk(s, id, Answered(was, Search(was.searchQuery), listing))
  {
    var b := Answered(was, Search(was.searchQuery), listing);
    assert b.details == was.details && b.liked == was.liked && b.detail == was.detail && b.selected == was.selected;
  }

  lemma AnsweredListings(s: State, id: Source, feed: Feed, listing: Listing)
    requires ListingsOk(s, id, RecordOf(s, id)) && ListingOk(listing, id, feed, Epoch(s, id)) && !feed.Section?
    requires feed.Search? ==> feed.query == RecordOf(s, id).searchQuery
    ensures ListingsOk(s, id, Answered(RecordOf(s, id), feed, listing))
  {
    match feed
    case Liked => LikedListings(s, id, RecordOf(s, id), listing);
    case Playlist(remote) => PlaylistListings(s, id, RecordOf(s, id), remote, listing);
    case Search(_) => SearchListings(s, id, RecordOf(s, id), listing);
  }

  lemma AnsweredQuiet(id: Source, was: Browse, feed: Feed, listing: Listing)
    requires !feed.Section?
    ensures var b := Answered(was, feed, listing);
            && b.searchQuery == was.searchQuery && b.challenge == was.challenge
            && (b.detailStatus == Loading ==> was.detailStatus == Loading && b.selected == was.selected)
            && (forall key :: Spins(id, b, key) ==> Spins(id, was, key) && key != Key(id, OperationOf(feed)))
            && (forall other :: OperationOf(other) != OperationOf(feed) ==>
                  ListingIn(b, other) == ListingIn(was, other))
  {
  }

  lemma AnsweredShape(s: State, call: Call, page: Page)
    requires call.PageCall? && !call.request.feed.Section? && Current(s, KeyOf(call.request), call.token)
    ensures var id := call.request.id;
            SettlePage(s, call, PageIs(page))
              == Patch(s, id, Answered(RecordOf(s, id), call.request.feed,
                                       Extend(call.before, call.more, Reply(call.request, page))))
  {
  }

  lemma PageOkKeeps(s: State, k: nat, page: Page)
    requires Inv(s) && k in s.calls && s.calls[k].PageCall? && !s.calls[k].request.feed.Section?
    requires Live(s, KeyOf(s.calls[k].request), k)
    ensures Inv(SettlePage(DropCall(s, k), s.calls[k], PageIs(page)))
  {
    var call := s.calls[k];
    var r := call.request;
    var id := r.id;
    var rest := DropCall(s, k);
    var listing := Extend(call.before, call.more, Reply(r, page));
    PageCallFacts(s, k);
    ExtendLinks(call, page);
    DropKeeps(s, k);
    var skip := Covers(s, k);
    var b := Answered(RecordOf(rest, id), r.feed, listing);
    assert RecordOk(rest, id, RecordOf(rest, id), skip);
    AnsweredListings(rest, id, r.feed, listing);
    AnsweredQuiet(id, RecordOf(rest, id), r.feed, listing);
    DropUnheld(s, KeyOf(r), k);
    AnsweredRecord(rest, skip, id, b);
    PatchKeeps(rest, skip, id, b);
    AnsweredShape(rest, call, page);
  }

  /** The record after the live request for `feed` failed, before the failure is noted. */
  function Refused(was: Browse, feed: Feed): Browse {
    match feed
    case Liked => was.(likedStatus := Errored, likedLoadingMore := false)
    case Playlist(remote) => if was.selected == Some(remote) then was.(detailStatus := Errored) else was
    case Search(_) => was.(searchStatus := Errored)
    case Section(_) => was
  }

  lemma RefusedQuiet(id: Source, was: Browse, feed: Feed)
    ensures SameTo(was, Refused(was, feed))
    ensures forall key :: Spins(id, Refused(was, feed), key) ==> key != Key(id, OperationOf(feed))
  {
  }

  /**
  A record may note a failure, and a failure that ends the session resets it, once the
  spinner it answers is down.
  */
  lemma TouchedFails(s: State, skip: Option<Key>, id: Source, b: Browse, slot: string, error: Error)
    requires InvBut(s, skip) && (skip.Some? ==> skip.value.id == id)
    requires SameTo(RecordOf(s, id), b) && forall key :: Spins(id, b, key) ==> skip != Some(key)
    ensures Inv(Fail(Patch(s, id, b), id, slot, error))
  {
    TouchKeeps(s, skip, id, b);
    FailKeeps(Patch(s, id, b), id, slot, error);
  }

  lemma CoversItsSource(s: State, k: nat)
    requires k in s.calls
    ensures Covers(s, k).Some? ==> Covers(s, k).value.id == IdOf(s.calls[k])
  {
  }

  function SlotOf(feed: Feed): string {
    match feed
    case Liked => "liked"
    case Playlist(_) => "playlist"
    case _ => "search"
  }

  lemma FailPatched(s: State, id: Source, b: Browse, slot: string, error: Error)
    ensures RecordOf(Patch(s, id, b), id) == b
  {
  }

  /** Patching in the record that is there already does not change how a failure is noted. */
  lemma FailUnpatched(s: State, id: Source, slot: string, error: Error)
    ensures Fail(Patch(s, id, RecordOf(s, id)), id, slot, error) == Fail(s, id, slot, error)
  {
    var b := RecordOf(s, id);
    var c := b.(errors := b.errors[slot := error.message]);
    assert Patch(Patch(s, id, b), id, c) == Patch(s, id, c);
  }

  lemma RefusedShape(s: State, call: Call, error: Error)
    requires call.PageCall? && !call.request.feed.Section? && Current(s, KeyOf(call.request), call.token)
    ensures var id := call.request.id;
            SettlePage(s, call, Rejected(error))
              == Fail(Patch(s, id, Refused(RecordOf(s, id), call.request.feed)), id, SlotOf(call.request.feed), error)
  {
    var id := call.request.id;
    var b := Refused(RecordOf(s, id), call.request.feed);
    FailPatched(s, id, b, SlotOf(call.request.feed), error);
    if b == RecordOf(s, id) {
      FailUnpatched(s, id, SlotOf(call.request.feed), error);
    }
  }

  lemma PageFailedKeeps(s: State, k: nat, error: Error)
    requires Inv(s) && k in s.calls && s.calls[k].PageCall? && !s.calls[k].request.feed.Section?
    requires Live(s, KeyOf(s.calls[k].request), k)
    ensures Inv(SettlePage(DropCall(s, k), s.calls[k], Rejected(error)))
  {
    var id := s.calls[k].request.id;
    var feed := s.calls[k].request.feed;
    var rest := DropCall(s, k);
    DropKeeps(s, k);
    CoversItsSource(s, k);
    RefusedQuiet(id, RecordOf(rest, id), feed);
    TouchedFails(rest, Covers(s, k), id, Refused(RecordOf(rest, id), feed), SlotOf(feed), error);
    RefusedShape(rest, s.calls[k], error);
  }

  /** No spinner of a record waits for a section's page. */
  lemma SectionDropped(s: State, k: nat)
    requires Inv(s) && k in s.calls && s.calls[k].PageCall? && s.calls[k].request.feed.Section?
    requires Live(s, KeyOf(s.calls[k].request), k)
    ensures Inv(DropCall(s, k))
  {
    DropKeeps(s, k);
    NoSectionSpinner(DropCall(s, k), s.calls[k].request.id);
  }

  lemma BroughtChain(s: State, k: nat, page: Page)
    requires Inv(s) && k in s.calls && s.calls[k].PageCall?
    ensures Chain(Extend(s.calls[k].before, s.calls[k].more, Reply(s.calls[k].request, page)),
                  s.calls[k].request.id, s.calls[k].request.feed)
  {
    PageCallFacts(s, k);
    ExtendLinks(s.calls[k], page);
  }

  lemma SectionBroughtKeeps(s: State, k: nat, page: Page)
    requires Inv(s) && k in s.calls && s.calls[k].PageCall? && s.calls[k].request.feed.Section?
    requires Live(s, KeyOf(s.calls[k].request), k)
    ensures Inv(SettlePage(DropCall(s, k), s.calls[k], PageIs(page)))
  {
    var call := s.calls[k];
    BroughtChain(s, k, page);
    SectionDropped(s, k);
    SetSectionKeeps(DropCall(s, k), None, call.request.id, call.request.feed.query,
                    SectionState(Ready, Extend(call.before, call.more, Reply(call.request, page))));
  }

  lemma ShownFailing(s: State, id: Source, query: string, error: Error)
    requires Inv(s)
    ensures Inv(Fail(SetSection(s, id, query, SectionOf(s, id).(status := Errored)), id, "search", error))
  {
    SetSectionKeeps(s, None, id, query, SectionOf(s, id).(status := Errored));
    FailKeeps(SetSection(s, id, query, SectionOf(s, id).(status := Errored)), id, "search", error);
  }

  lemma SectionFailedKeeps(s: State, k: nat, error: Error)
    requires Inv(s) && k in s.calls && s.calls[k].PageCall? && s.calls[k].request.feed.Section?
    requires Live(s, KeyOf(s.calls[k].request), k)
    ensures Inv(SettlePage(DropCall(s, k), s.calls[k], Rejected(error)))
  {
    SectionDropped(s, k);
    ShownFailing(DropCall(s, k), s.calls[k].request.id, s.calls[k].request.feed.query, error);
  }

  lemma SectionSettledKeeps(s: State, k: nat, outcome: Outcome)
    requires Inv(s) && k in s.calls && s.calls[k].PageCall? && s.calls[k].request.feed.Section?
    requires Live(s, KeyOf(s.calls[k].request), k) && Fits(s.calls[k], outcome)
    ensures Inv(SettlePage(DropCall(s, k), s.calls[k], outcome))
  {
    match outcome {
      case PageIs(page) => SectionBroughtKeeps(s, k, page);
      case Rejected(error) => SectionFailedKeeps(s, k, error);
    }
  }

  /** Sections spin outside the records, so exempting their key exempts nothing. */
  lemma NoSectionSpinner(s: State, id: Source)
    requires InvBut(s, Some(Key(id, OnSection)))
    ensures Inv(s)
  {
    forall other ensures RecordOk(s, other, RecordOf(s, other)) {
      var b := RecordOf(s, other);
      assert RecordOk(s, other, b, Some(Key(id, OnSection)));
      forall key | Spins(other, b, key) ensures Awaited(s, key) {
        assert key != Key(id, OnSection);
      }
    }
  }

  lemma SettlePageKeeps(s: State, k: nat, outcome: Outcome)
    requires Inv(s) && k in s.calls && s.calls[k].PageCall? && Fits(s.calls[k], outcome)
    ensures Inv(SettlePage(DropCall(s, k), s.calls[k], outcome))
  {
    var r := s.calls[k].request;
    if !Live(s, KeyOf(r), k) {
      DropKeeps(s, k);
    } else if r.feed.Section? {
      SectionSettledKeeps(s, k, outcome);
    } else {
      match outcome
      case PageIs(page) => PageOkKeeps(s, k, page);
      case Rejected(error) => PageFailedKeeps(s, k, error);
    }
  }

  lemma SessionPatched(s: State, k: nat, b: Browse)
    requires Inv(s) && k in s.calls && s.calls[k].SessionCall? && Live(s, Key(s.calls[k].id, OnSession), k)
    requires b == RecordOf(s, s.calls[k].id).(session := b.session, sessionStatus := b.sessionStatus)
    requires b.sessionStatus != Loading
    ensures Inv(Patch(DropCall(s, k), s.calls[k].id, b))
  {
    DropKeeps(s, k);
    TouchKeeps(DropCall(s, k), Covers(s, k), s.calls[k].id, b);
  }

  lemma SessionRefusedShape(s: State, call: Call, error: Error)
    requires call.SessionCall? && Current(s, Key(call.id, OnSession), call.token)
    ensures SettleSession(s, call.(thenSearch := None), Rejected(error))
         == Fail(Patch(s, call.id, RecordOf(s, call.id).(sessionStatus := Errored)), call.id, "session", error)
  {
  }

  lemma SessionRefused(s: State, k: nat, error: Error)
    requires Inv(s) && k in s.calls && s.calls[k].SessionCall? && Live(s, Key(s.calls[k].id, OnSession), k)
    ensures Inv(SettleSession(DropCall(s, k), s.calls[k].(thenSearch := None), Rejected(error)))
  {
    var b := RecordOf(s, s.calls[k].id).(sessionStatus := Errored);
    SessionPatched(s, k, b);
    FailKeeps(Patch(DropCall(s, k), s.calls[k].id, b), s.calls[k].id, "session", error);
    SessionRefusedShape(DropCall(s, k), s.calls[k], error);
  }

  lemma SessionSettled(s: State, k: nat, outcome: Outcome)
    requires Inv(s) && k in s.calls && s.calls[k].SessionCall? && Fits(s.calls[k], outcome)
    ensures Inv(SettleSession(DropCall(s, k), s.calls[k].(thenSearch := None), outcome))
  {
    if !Live(s, Key(s.calls[k].id, OnSession), k) {
      DropKeeps(s, k);
    } else {
      match outcome {
        case SessionIs(session) =>
          SessionPatched(s, k, RecordOf(s, s.calls[k].id).(session := Some(session), sessionStatus := Ready));
        case Rejected(error) => SessionRefused(s, k, error);
      }
    }
  }

  lemma SettleSessionKeeps(s: State, k: nat, outcome: Outcome)
    requires Inv(s) && k in s.calls && s.calls[k].SessionCall? && Fits(s.calls[k], outcome)
    ensures Inv(SettleSession(DropCall(s, k), s.calls[k], outcome))
  {
    var call := s.calls[k];
    SessionSettled(s, k, outcome);
    if call.thenSearch.Some? {
      PlainKeeps(SettleSession(DropCall(s, k), call.(thenSearch := None), outcome),
                 SectionStart(call.id, call.thenSearch.value));
    }
  }

  /** When nobody holds the sign-in token the stored challenge may change freely. */
  lemma UnheldRecord(s: State, id: Source, b: Browse)
    requires RecordOk(s, id, RecordOf(s, id)) && Unheld(s, Key(id, OnAuth))
    requires b.authStatus != Loading
    requires b == RecordOf(s, id).(challenge := b.challenge, authStatus := b.authStatus, errors := b.errors)
    ensures RecordOk(s, id, b)
  {
    var was := RecordOf(s, id);
    forall key | Spins(id, b, key) ensures Awaited(s, key) {
      assert Spins(id, was, key);
    }
    forall k <- s.calls | s.calls[k].PollTimer? ensures s.calls[k].id != id {
      assert !Live(s, Key(id, OnAuth), k);
    }
  }

  lemma UnheldKeeps(s: State, id: Source, b: Browse)
    requires Inv(s) && Unheld(s, Key(id, OnAuth))
    requires b.authStatus != Loading
    requires b == RecordOf(s, id).(challenge := b.challenge, authStatus := b.authStatus, errors := b.errors)
    ensures Inv(Patch(s, id, b))
  {
    assert RecordOk(s, id, RecordOf(s, id));
    UnheldRecord(s, id, b);
    PatchKeeps(s, None, id, b);
  }

  /** A call that covers no spinner leaves the store in order. */
  lemma UncoveredKeeps(s: State, k: nat)
    requires Inv(s) && k in s.calls && Covers(s, k) == None
    ensures Inv(DropCall(s, k))
  {
    DropKeeps(s, k);
  }

  lemma CancelledKeeps(s: State, k: nat)
    requires Inv(s) && k in s.calls && s.calls[k].CancelCall? && Live(s, Key(s.calls[k].id, OnAuth), k)
    ensures Inv(Patch(DropCall(s, k), s.calls[k].id,
                      RecordOf(s, s.calls[k].id).(challenge := None, authStatus := Idle)))
  {
    UncoveredKeeps(s, k);
    DropUnheld(s, Key(s.calls[k].id, OnAuth), k);
    UnheldKeeps(DropCall(s, k), s.calls[k].id, RecordOf(s, s.calls[k].id).(challenge := None, authStatus := Idle));
  }

  lemma LiveCancelKeeps(s: State, k: nat, outcome: Outcome)
    requires Inv(s) && k in s.calls && s.calls[k].CancelCall? && Fits(s.calls[k], outcome)
    requires Live(s, Key(s.calls[k].id, OnAuth), k)
    requires RecordOf(s, s.calls[k].id).challenge == Some(s.calls[k].challenge)
    ensures Inv(CancelSettled(DropCall(s, k), s.calls[k], outcome))
  {
    match outcome {
      case Done => CancelledKeeps(s, k);
      case Rejected(error) =>
        UncoveredKeeps(s, k);
        FailKeeps(DropCall(s, k), s.calls[k].id, "auth", error);
    }
  }

  lemma CancelSettledKeeps(s: State, k: nat, outcome: Outcome)
    requires Inv(s) && k in s.calls && s.calls[k].CancelCall? && Fits(s.calls[k], outcome)
    ensures Inv(CancelSettled(DropCall(s, k), s.calls[k], outcome))
  {
    var call := s.calls[k];
    if Live(s, Key(call.id, OnAuth), k) && RecordOf(s, call.id).challenge == Some(call.challenge) {
      LiveCancelKeeps(s, k, outcome);
    } else {
      UncoveredKeeps(s, k);
    }
  }

  lemma SettleCancelKeeps(s: State, k: nat, outcome: Outcome)
    requires Inv(s) && k in s.calls && s.calls[k].CancelCall? && Fits(s.calls[k], outcome)
    ensures Inv(SettleCancel(DropCall(s, k), s.calls[k], outcome))
  {
    CancelSettledKeeps(s, k, outcome);
    ContinueOpenKeeps(CancelSettled(DropCall(s, k), s.calls[k], outcome), s.calls[k].id, s.calls[k].thenOpen);
  }

  /** A record whose spinner for sign-in is down, next to the loop that takes the token over. */
  lemma HoldMay(s: State, skip: Option<Key>, b: Browse, call: Call)
    requires call.PollTimer? || call.PollCall?
    requires RecordOk(s, call.id, RecordOf(s, call.id), skip)
    requires skip.Some? ==> skip.value == Key(call.id, OnAuth)
    requires Unheld(s, Key(call.id, OnAuth)) && Current(s, Key(call.id, OnAuth), call.token)
    requires b == RecordOf(s, call.id).(challenge := Some(call.challenge), authStatus := b.authStatus)
    requires b.authStatus != Loading
    ensures MayHold(s, b, call)
    ensures ListingsOk(s, call.id, b) && RequestsOk(s, call.id, b) && LoadingOk(s, call.id, b, None)
  {
    forall key | Spins(call.id, b, key) ensures Awaited(s, key) {
      assert Spins(call.id, RecordOf(s, call.id), key) && key != Key(call.id, OnAuth);
    }
  }

  lemma ArmShape(s: State, id: Source, b: Browse, challenge: Challenge, token: nat)
    ensures Arm(Patch(s, id, b), id, challenge, token) == Patch(Hold(s, PollTimer(id, challenge, token)), id, b)
  {
  }

  /** The challenge is stored and its poll loop takes over the token of the call that brought it. */
  lemma ChallengeTaken(s: State, skip: Option<Key>, call: Call, challenge: Challenge)
    requires call.OpenCall? && InvBut(s, skip) && (skip.Some? ==> skip.value == Key(call.id, OnAuth))
    requires Unheld(s, Key(call.id, OnAuth)) && Current(s, Key(call.id, OnAuth), call.token)
    ensures Inv(SettleOpen(s, call, ChallengeIs(challenge)))
  {
    var was := RecordOf(s, call.id);
    var loop := PollTimer(call.id, challenge, call.token);
    var b := was.(challenge := Some(challenge), authStatus := Ready);
    assert RecordOk(s, call.id, was, skip);
    HoldMay(s, skip, b, loop);
    HoldKeeps(s, skip, b, loop);
    ArmShape(s, call.id, b, challenge, call.token);
  }

  lemma OpeningRefused(s: State, skip: Option<Key>, id: Source, error: Error)
    requires InvBut(s, skip) && (skip.Some? ==> skip.value == Key(id, OnAuth))
    ensures Inv(Fail(Patch(s, id, RecordOf(s, id).(authStatus := Errored)), id, "auth", error))
  {
    TouchedFails(s, skip, id, RecordOf(s, id).(authStatus := Errored), "auth", error);
  }

  lemma OpenRefusedKeeps(s: State, k: nat, error: Error)
    requires Inv(s) && k in s.calls && s.calls[k].OpenCall? && Live(s, Key(s.calls[k].id, OnAuth), k)
    ensures Inv(SettleOpen(DropCall(s, k), s.calls[k], Rejected(error)))
  {
    DropKeeps(s, k);
    OpeningRefused(DropCall(s, k), Covers(s, k), s.calls[k].id, error);
  }

  lemma OpenBroughtKeeps(s: State, k: nat, challenge: Challenge)
    requires Inv(s) && k in s.calls && s.calls[k].OpenCall? && Live(s, Key(s.calls[k].id, OnAuth), k)
    ensures Inv(SettleOpen(DropCall(s, k), s.calls[k], ChallengeIs(challenge)))
  {
    DropKeeps(s, k);
    DropUnheld(s, Key(s.calls[k].id, OnAuth), k);
    ChallengeTaken(DropCall(s, k), Covers(s, k), s.calls[k], challenge);
  }

  lemma LiveOpenKeeps(s: State, k: nat, outcome: Outcome)
    requires Inv(s) && k in s.calls && s.calls[k].OpenCall? && Fits(s.calls[k], outcome)
    requires Live(s, Key(s.calls[k].id, OnAuth), k)
    ensures Inv(SettleOpen(DropCall(s, k), s.calls[k], outcome))
  {
    match outcome {
      case ChallengeIs(challenge) => OpenBroughtKeeps(s, k, challenge);
      case Rejected(error) => OpenRefusedKeeps(s, k, error);
    }
  }

  lemma SettleOpenKeeps(s: State, k: nat, outcome: Outcome)
    requires Inv(s) && k in s.calls && s.calls[k].OpenCall? && Fits(s.calls[k], outcome)
    ensures Inv(SettleOpen(DropCall(s, k), s.calls[k], outcome))
  {
    if Live(s, Key(s.calls[k].id, OnAuth), k) {
      LiveOpenKeeps(s, k, outcome);
    } else {
      DropKeeps(s, k);
      if outcome.ChallengeIs? {
        PlainKeeps(DropCall(s, k), LateCancelCall(s.calls[k].id, outcome.challenge));
      }
    }
  }

  /** A timer becomes a poll, or a poll a timer, while the record stays as it is. */
  lemma PassOnMay(s: State, k: nat, call: Call)
    requires call.PollTimer? || call.PollCall?
    requires Inv(s) && k in s.calls && Covers(s, k) == None && Live(s, Key(call.id, OnAuth), k)
    requires TokenOf(s.calls[k]) == call.token && RecordOf(s, call.id).challenge == Some(call.challenge)
    ensures var rest := DropCall(s, k); var b := RecordOf(rest, call.id);
            && Inv(rest) && MayHold(rest, b, call)
            && ListingsOk(rest, call.id, b) && RequestsOk(rest, call.id, b) && LoadingOk(rest, call.id, b, None)
  {
    var rest := DropCall(s, k);
    DropKeeps(s, k);
    DropUnheld(s, Key(call.id, OnAuth), k);
    assert RecordOk(rest, call.id, RecordOf(rest, call.id));
    ChallengeStopsOpening(rest, call.id);
    HoldMay(rest, None, RecordOf(rest, call.id), call);
  }

  lemma PassOnKeeps(s: State, k: nat, call: Call)
    requires call.PollTimer? || call.PollCall?
    requires Inv(s) && k in s.calls && Covers(s, k) == None && Live(s, Key(call.id, OnAuth), k)
    requires TokenOf(s.calls[k]) == call.token && RecordOf(s, call.id).challenge == Some(call.challenge)
    ensures Inv(Hold(DropCall(s, k), call))
  {
    var id := call.id;
    var rest := DropCall(s, k);
    var b := RecordOf(rest, id);
    PassOnMay(s, k, call);
    HoldKeeps(rest, None, b, call);
    RestoreKeeps(rest, Hold(rest, call), Patch(Hold(rest, call), id, b), id);
  }

  lemma SettleTimerKeeps(s: State, k: nat)
    requires Inv(s) && k in s.calls && s.calls[k].PollTimer?
    ensures Inv(SettleTimer(DropCall(s, k), s.calls[k]))
  {
    var call := s.calls[k];
    if Live(s, Key(call.id, OnAuth), k) && RecordOf(s, call.id).challenge == Some(call.challenge) {
      PassOnKeeps(s, k, PollCall(call.id, call.challenge, call.token));
    } else {
      DropKeeps(s, k);
    }
  }

  /** A live poll is polling the challenge its source has stored. */
  lemma LivePollStored(s: State, k: nat)
    requires Inv(s) && k in s.calls && s.calls[k].PollCall? && Live(s, Key(s.calls[k].id, OnAuth), k)
    ensures RecordOf(s, s.calls[k].id).challenge == Some(s.calls[k].challenge)
  {
    assert RecordOk(s, s.calls[k].id, RecordOf(s, s.calls[k].id));
  }

  lemma LivePollKeeps(s: State, k: nat, outcome: Outcome)
    requires Inv(s) && k in s.calls && s.calls[k].PollCall? && Fits(s.calls[k], outcome)
    requires Live(s, Key(s.calls[k].id, OnAuth), k) && outcome != PollIs(Pending)
    ensures Inv(SettlePoll(DropCall(s, k), s.calls[k], outcome))
  {
    var id := s.calls[k].id;
    DropKeeps(s, k);
    DropUnheld(s, Key(id, OnAuth), k);
    LivePollStored(s, k);
    ChallengeStopsOpening(DropCall(s, k), id);
    PollEndKeeps(DropCall(s, k), s.calls[k], outcome);
  }

  lemma PendingPollKeeps(s: State, k: nat)
    requires Inv(s) && k in s.calls && s.calls[k].PollCall? && Live(s, Key(s.calls[k].id, OnAuth), k)
    ensures Inv(SettlePoll(DropCall(s, k), s.calls[k], PollIs(Pending)))
  {
    LivePollStored(s, k);
    PassOnKeeps(s, k, PollTimer(s.calls[k].id, s.calls[k].challenge, s.calls[k].token));
  }

  lemma SettlePollKeeps(s: State, k: nat, outcome: Outcome)
    requires Inv(s) && k in s.calls && s.calls[k].PollCall? && Fits(s.calls[k], outcome)
    ensures Inv(SettlePoll(DropCall(s, k), s.calls[k], outcome))
  {
    if !Live(s, Key(s.calls[k].id, OnAuth), k) {
      DropKeeps(s, k);
    } else if outcome == PollIs(Pending) {
      PendingPollKeeps(s, k);
    } else {
      LivePollKeeps(s, k, outcome);
    }
  }

  /** Every answer but a pending one ends the loop. */
  lemma PollEndKeeps(s: State, call: Call, outcome: Outcome)
    requires Inv(s) && call.PollCall? && Fits(call, outcome) && outcome != PollIs(Pending)
    requires Unheld(s, Key(call.id, OnAuth)) && RecordOf(s, call.id).authStatus != Loading
    ensures Inv(SettlePoll(s, call, outcome))
  {
    var id := call.id;
    var was := RecordOf(s, id);
    match outcome {
      case PollIs(Complete(Some(session))) => AcceptSignInKeeps(s, id, session);
      case PollIs(Complete(None)) =>
        UnheldKeeps(s, id, was.(challenge := None, errors := was.errors["auth" := "complete"]));
      case PollIs(Other(state)) => UnheldKeeps(s, id, was.(challenge := None, errors := was.errors["auth" := state]));
      case Rejected(error) => PollRefusedKeeps(s, id, error);
    }
  }

  lemma PollRefusedKeeps(s: State, id: Source, error: Error)
    requires Inv(s) && Unheld(s, Key(id, OnAuth)) && RecordOf(s, id).authStatus != Loading
    ensures Inv(Fail(Patch(s, id, RecordOf(s, id).(challenge := None, authStatus := Idle)), id, "auth", error))
  {
    var b := RecordOf(s, id).(challenge := None, authStatus := Idle);
    assert Inv(Patch(s, id, b)) by {
      UnheldKeeps(s, id, b);
    }
    FailKeeps(Patch(s, id, b), id, "auth", error);
  }

  lemma SectionStartKeeps(s: State, k: nat)
    requires Inv(s) && k in s.calls && s.calls[k].SectionStart?
    ensures Inv(SettleSectionStart(DropCall(s, k), s.calls[k].id, s.calls[k].query))
  {
    var rest := DropCall(s, k);
    UncoveredKeeps(s, k);
    if RecordOf(rest, s.calls[k].id).sessionStatus == Idle {
      LoadSessionKeeps(rest, s.calls[k].id, Some(s.calls[k].query));
    } else {
      SearchSectionKeeps(rest, s.calls[k].id, s.calls[k].query, None);
    }
  }

  lemma OpenAgainKeeps(s: State, k: nat)
    requires Inv(s) && k in s.calls && s.calls[k].OpenAfterCancel?
    ensures Inv(SettleOpenAfterCancel(DropCall(s, k), s.calls[k].id))
  {
    UncoveredKeeps(s, k);
    OpenAfterCancelKeeps(DropCall(s, k), s.calls[k].id);
  }

  lemma SignOutKeeps(s: State, k: nat, outcome: Outcome)
    requires Inv(s) && k in s.calls && s.calls[k].SignOutCall? && Fits(s.calls[k], outcome)
    ensures Inv(SettleSignOut(DropCall(s, k), s.calls[k].id, outcome))
  {
    var rest := DropCall(s, k);
    UncoveredKeeps(s, k);
    match outcome {
      case SessionIs(session) =>
        ResetKeeps(rest, s.calls[k].id, EMPTY_BROWSE.(session := Some(session), sessionStatus := Ready));
      case Rejected(error) => FailKeeps(rest, s.calls[k].id, "auth", error);
    }
  }

  lemma SettleKeeps(s: State, k: nat, outcome: Outcome)
    requires Inv(s) && k in s.calls && Fits(s.calls[k], outcome)
    ensures Inv(SettleStep(s, k, outcome))
  {
    match s.calls[k] {
      case PageCall(_, _, _, _) => SettlePageKeeps(s, k, outcome);
      case SessionCall(_, _, _) => SettleSessionKeeps(s, k, outcome);
      case SectionStart(id, query) => SectionStartKeeps(s, k);
      case CancelCall(_, _, _, _) => SettleCancelKeeps(s, k, outcome);
      case OpenAfterCancel(id) => OpenAgainKeeps(s, k);
      case OpenCall(_, _) => SettleOpenKeeps(s, k, outcome);
      case LateCancelCall(_, _) => UncoveredKeeps(s, k);
      case PollTimer(_, _, _) => SettleTimerKeeps(s, k);
      case PollCall(_, _, _) => SettlePollKeeps(s, k, outcome);
      case SignOutCall(id) => SignOutKeeps(s, k, outcome);
    }
  }

  lemma ClosePlaylistKeeps(s: State)
    requires Inv(s)
    ensures Inv(ClosePlaylistStep(s))
  {
    var id := ActiveId(s);
    var was := RecordOf(s, id);
    assert RecordOk(s, id, was);
    var b := was.(detail := None, selected := None, detailStatus := Idle);
    AnsweredRecord(s, None, id, b);
    PatchKeeps(s, None, id, b);
  }

  // ---------- the theorem ----------

  /** The synchronous actions. */
  lemma ShowSourceKeeps(s: State, id: Source)
    requires Inv(s)
    ensures Inv(Step(s, ShowSource(id)))
  {
    ViewKeeps(s, None, Step(s, ShowSource(id)));
  }

  lemma ActionKeeps(s: State, e: Event)
    requires Inv(s) && !e.Settle?
    ensures Inv(Step(s, e))
  {
    match e
    case ShowLibrary => ViewKeeps(s, None, Step(s, e));
    case ShowSource(id) => ShowSourceKeeps(s, id);
    case ApplySource(source) => ApplySourceKeeps(s, source);
    case LoadLiked(more) => LoadLikedKeeps(s, more);
    case OpenPlaylist(remote, more) => OpenPlaylistKeeps(s, remote, more);
    case ClosePlaylist => ClosePlaylistKeeps(s);
    case RunSearch(query, more) => RunSearchKeeps(s, query, more);
    case ClearSearch => ClearSearchKeeps(s);
    case SearchEverywhere(query) => SearchEverywhereKeeps(s, query);
    case SearchMoreIn(id) => SearchMoreInKeeps(s, id);
    case LoadSession(id) => LoadSessionKeeps(s, id, None);
    case OpenSignIn(id) => CancelSignInKeeps(s, id, true);
    case CancelSignIn(id) => CancelSignInKeeps(s, id, false);
    case AcceptSignIn(id, session) => AcceptSignInKeeps(s, id, session);
    case SetSignInError(id, challenge, message) => SetSignInErrorKeeps(s, id, challenge, message);
    case SignOut(id) => PlainKeeps(s, SignOutCall(id));
  }

  lemma StepKeeps(s: State, e: Event)
    requires Inv(s) && Possible(s, e)
    ensures Inv(Step(s, e))
  {
    if e.Settle? {
      SettleKeeps(s, e.call, e.outcome);
    } else {
      ActionKeeps(s, e);
    }
  }

  lemma InitialOk()
    ensures Inv(INITIAL)
  {
  }
}
