/**
The browsing store as the object it is in the application: the actions a view calls, and a method for each
kind of backend call that settles. A store in good order stays so, whatever is called or settles next.
*/
module CatalogStoreObject {
  import opened Basics
  import opened B = CatalogBrowse
  import opened CatalogBrowseProofs
  import opened CatalogBrowseRuns
  import opened CatalogBrowseSections
  import opened CatalogBrowseTheorems
  import opened CatalogStoreAnswers
  import opened CatalogStoreFacts

  class CatalogStore {
    var generations: map<Key, nat>
    var records: map<Source, Browse>
    var view: View
    var active: Option<Source>
    var top: Browse
    var sources: seq<SourceInfo>
    var global: GlobalSearch
    var authTimers: map<Source, nat>
    /** The awaits and timers that are out: what the event loop may settle next. */
    var calls: map<nat, Call>
    var nextId: nat
    /** History: how often each source was reset. */
    var epochs: map<Source, nat>

    function Now(): State
      reads this
    {
      State(generations, records, view, active, top, sources, global, authTimers, calls, nextId, epochs)
    }

    /**
    The lists are linked pages, those of a source's record all of this session, every spinner has its answer out,
    each source has one sign-in loop at most, and the view mirrors the record of the active source.
    */
    ghost predicate Valid()
      reads this
    {
      Inv(Now())
    }

    constructor ()
      ensures Valid() && Now() == INITIAL
    {
      generations, records, view, active, top := map[], map[], Library, None, EMPTY_BROWSE;
      sources, global, authTimers := [], GlobalSearch("", map[]), map[];
      calls, nextId, epochs := map[], 0, map[];
    }

    // ---------- helpers ----------

    method TakeToken(key: Key) returns (token: nat)
      modifies this`generations
      ensures Now() == Bump(old(Now()), key)
      ensures token == Generation(Now(), key) && Current(Now(), key, token)
    {
      token := (if key in generations then generations[key] else 0) + 1;
      generations := generations[key := token];
    }

    method PatchRecord(id: Source, record: Browse)
      modifies this`records, this`top
      ensures Now() == Patch(old(Now()), id, record)
    {
      records := records[id := record];
      if view != Library && (if active.Some? then active.value else "") == id {
        top := record;
      }
    }

    method Send(call: Call)
      modifies this`calls, this`nextId
      ensures Now() == AddCall(old(Now()), call)
    {
      calls := calls[nextId := call];
      nextId := nextId + 1;
    }

    method ClearAuthTimer(id: Source)
      modifies this`calls
      ensures Now() == ClearTimer(old(Now()), id)
    {
      if id in authTimers {
        calls := calls - {authTimers[id]};
      }
    }

    method ArmTimer(id: Source, challenge: Challenge, token: nat)
      modifies this`calls, this`nextId, this`authTimers
      ensures Now() == Arm(old(Now()), id, challenge, token)
    {
      var handle := nextId;
      Send(PollTimer(id, challenge, token));
      authTimers := authTimers[id := handle];
    }

    /** Every token of the source is outdated, one key after the other. */
    method OutdateTokens(id: Source)
      modifies this`generations
      ensures generations == map key | key in old(generations) ::
                if key.id == id then old(generations)[key] + 1 else old(generations)[key]
    {
      var keys := generations.Keys;
      while keys != {}
        invariant keys <= generations.Keys == old(generations).Keys
        invariant forall key <- generations ::
          generations[key] == if key.id == id && key !in keys then old(generations)[key] + 1 else old(generations)[key]
        decreases |keys|
      {
        var key :| key in keys;
        if key.id == id {
          generations := generations[key := generations[key] + 1];
        }
        keys := keys - {key};
      }
    }

    method InvalidateSource(id: Source)
      modifies this`generations, this`calls, this`authTimers, this`epochs
      ensures Now() == Invalidate(old(Now()), id)
    {
      OutdateTokens(id);
      ClearAuthTimer(id);
      authTimers := authTimers - {id};
      epochs := epochs[id := (if id in epochs then epochs[id] else 0) + 1];
    }

    method NoteFailure(id: Source, slot: string, error: Error)
      modifies this
      ensures Now() == Fail(old(Now()), id, slot, error)
    {
      var was := RecordOf(Now(), id);
      PatchRecord(id, was.(errors := was.errors[slot := error.message]));
      if error.expired {
        InvalidateSource(id);
        PatchRecord(id, EMPTY_BROWSE.(sessionStatus := Ready, session := Some(Session(false, true))));
      }
    }

    method PutSection(id: Source, query: string, section: SectionState)
      modifies this`global
      ensures Now() == SetSection(old(Now()), id, query, section)
    {
      if global.query == query && id in global.sections {
        global := global.(sections := global.sections[id := section]);
      }
    }

    // ---------- views and sources ----------

    /** No source is shown; the records stay. */
    method ShowLibrary()
      requires Valid()
      modifies this`view, this`active, this`top
      ensures Valid() && Now() == Step(old(Now()), Event.ShowLibrary)
      ensures records == old(records) && top == EMPTY_BROWSE && view == Library && active.None?
      ensures ActiveId(Now()) == ""
    {
      ActionKeeps(Now(), Event.ShowLibrary);
      view, active, top := Library, None, EMPTY_BROWSE;
    }

    /** The source is shown with its record as it stands. */
    method ShowSource(id: Source)
      requires Valid()
      modifies this`view, this`active, this`top
      ensures Valid() && Now() == Step(old(Now()), Event.ShowSource(id))
      ensures records == old(records) && top == RecordOf(Now(), id) && view == Streaming && active == Some(id)
      ensures ActiveId(Now()) == id
    {
      ShowSourceKeeps(Now(), id);
      view, active, top := Streaming, Some(id), RecordOf(Now(), id);
    }

    /**
    The source is known as given. One that goes away starts over, with nothing it had out listened to; otherwise only
    the list of sources changes.
    */
    method ApplySource(source: SourceInfo)
      requires Valid()
      modifies this
      ensures Valid() && Now() == ApplySourceStep(old(Now()), source)
      ensures FindSource(sources, source.id) == Some(source)
      ensures if IsGone(old(Now()), source) then Silent(Now(), source.id) && RecordOf(Now(), source.id) == EMPTY_BROWSE
              else Now() == old(Now()).(sources := sources)
      ensures SourcesUpdated(old(sources), sources, source)
      ensures forall other :: other != source.id ==> RecordOf(Now(), other) == old(RecordOf(Now(), other))
    {
      SourcesAnswer(Now(), source);
      GoneExactlyWhen(Now(), source);
      ApplySourceKeeps(Now(), source);
      SourceKnown(Now(), source);
      SourceApplied(Now(), source);
      ReplaceSource(source);
    }

    method ReplaceSource(source: SourceInfo)
      modifies this
      ensures Now() == ApplySourceStep(old(Now()), source)
    {
      var previous := FindSource(sources, source.id);
      if previous.Some?
         && (|| !source.installed || (!source.enabled && previous.value.enabled)
             || source.state == Unavailable || source.state == UpdateRequired) {
        InvalidateSource(source.id);
        PatchRecord(source.id, EMPTY_BROWSE);
      }
      var list := sources;
      if previous.Some? {
        sources := seq(|list|, i requires 0 <= i < |list| => if list[i].id == source.id then source else list[i]);
      } else {
        sources := list + [source];
      }
    }

    // ---------- paged lists ----------

    /** What every request for a page does: takes a token, patches the record, sends. */
    method RequestPage(id: Source, feed: Feed, more: bool, before: Listing, cursor: Option<string>, record: Browse)
      modifies this
      ensures Now() == SendPage(old(Now()), id, feed, more, before, cursor, record)
    {
      var token := TakeToken(Key(id, OperationOf(feed)));
      PatchRecord(id, record);
      Send(PageCall(Request(id, feed, cursor, Epoch(Now(), id)), more, before, token));
    }

    /** The first page or the next one is asked for, from the cursor where the list stops; no list changes yet. */
    method LoadLiked(more: bool)
      requires Valid()
      modifies this
      ensures Valid() && Now() == LoadLikedStep(old(Now()), more)
      ensures ListsStay(old(Now()), Now(), None) && LikedAsked(old(Now()), Now(), more)
      ensures LikedAnswered(old(Now()), Now(), more)
    {
      LikedAnswers(Now(), more);
      LoadLikedKeeps(Now(), more);
      LikedLoaded(Now(), more);
      AskForLiked(more);
    }

    method AskForLiked(more: bool)
      modifies this
      ensures Now() == LoadLikedStep(old(Now()), more)
    {
      var id := ActiveId(Now());
      var was := RecordOf(Now(), id);
      if was.likedStatus == Loading || (more && !Truthy(was.liked.cursor)) {
        return;
      }
      RequestPage(id, Liked, more, was.liked, if more then was.liked.cursor else None,
                  was.(likedStatus := Loading, likedLoadingMore := more));
    }

    /** The playlist is shown as it is cached, and what is missing of it is asked for; no list changes yet. */
    method OpenPlaylist(remote: Remote, more: bool)
      requires Valid()
      modifies this
      ensures Valid() && Now() == OpenPlaylistStep(old(Now()), remote, more)
      ensures ListsStay(old(Now()), Now(), None) && PlaylistShown(old(Now()), Now(), remote, more)
      ensures PlaylistAnswered(old(Now()), Now(), remote, more) && PlaylistAsks(old(Now()), Now(), remote, more)
    {
      PlaylistIsAsked(Now(), remote, more);
      PlaylistAnswers(Now(), remote, more);
      OpenPlaylistKeeps(Now(), remote, more);
      PlaylistOpened(Now(), remote, more);
      AskForPlaylist(remote, more);
    }

    method AskForPlaylist(remote: Remote, more: bool)
      modifies this
      ensures Now() == OpenPlaylistStep(old(Now()), remote, more)
    {
      var id := ActiveId(Now());
      var was := RecordOf(Now(), id);
      var cached := if remote in was.details then Some(was.details[remote]) else None;
      if more && !(cached.Some? && Truthy(cached.value.cursor)) {
        return;
      }
      var shown := was.(selected := Some(remote), detail := cached,
                        detailStatus := if cached.Some? && !more then Ready else Loading);
      if cached.Some? && !more && was.detailStatus != Errored {
        PatchRecord(id, shown);
        return;
      }
      var before := if cached.Some? then cached.value else NO_LISTING;
      RequestPage(id, Playlist(remote), more, before, if more then before.cursor else None, shown);
    }

    /** Nothing is open; the cached playlists and what is out stay. */
    method ClosePlaylist()
      requires Valid()
      modifies this`records, this`top
      ensures Valid() && Now() == ClosePlaylistStep(old(Now()))
      ensures ListsStay(old(Now()), Now(), None) && calls == old(calls)
      ensures var b := RecordOf(Now(), ActiveId(Now())); b.selected.None? && b.detail.None? && b.detailStatus == Idle
      ensures SameSections(old(Now()), Now())
      ensures var was := old(RecordOf(Now(), ActiveId(Now())));
              Shows(old(Now()), Now(), ActiveId(Now()), was.(detail := None, selected := None, detailStatus := Idle))
    {
      CloseAnswers(Now());
      ClosePlaylistKeeps(Now());
      PlaylistClosed(Now());
      var id := ActiveId(Now());
      PatchRecord(id, RecordOf(Now(), id).(detail := None, selected := None, detailStatus := Idle));
    }

    /** The results are gone and no search still out is listened to. */
    method ClearSearch()
      requires Valid()
      modifies this
      ensures Valid() && Now() == ClearSearchStep(old(Now()))
      ensures var id := ActiveId(Now());
              && ListsStay(old(Now()), Now(), Some(id)) && RecordOf(Now(), id).search == NO_LISTING
              && (forall k :: !Live(Now(), Key(id, OnSearch), k))
      ensures SearchAnswered(old(Now()), Now(), "", false)
    {
      ClearAnswers(Now());
      ClearSearchKeeps(Now());
      SearchCleared(Now());
      EmptySearch();
    }

    method EmptySearch()
      modifies this
      ensures Now() == ClearSearchStep(old(Now()))
    {
      var id := ActiveId(Now());
      var token := TakeToken(Key(id, OnSearch));
      PatchRecord(id, RecordOf(Now(), id).(searchQuery := "", search := NO_LISTING, searchStatus := Idle));
    }

    /**
    An empty query clears the results. Another is asked for, anew or, for more, from the cursor where the results
    stop.
    */
    method RunSearch(query: string, more: bool)
      requires Valid()
      modifies this
      ensures Valid() && Now() == RunSearchStep(old(Now()), query, more)
      ensures SearchNoted(old(Now()), Now(), query, more)
      ensures SearchAnswered(old(Now()), Now(), query, more)
    {
      SearchAnswers(Now(), query, more);
      RunSearchKeeps(Now(), query, more);
      SearchRunEither(Now(), query, more);
      AskForSearch(query, more);
    }

    method AskForSearch(query: string, more: bool)
      modifies this
      ensures Now() == RunSearchStep(old(Now()), query, more)
    {
      var id := ActiveId(Now());
      var was := RecordOf(Now(), id);
      var trimmed := Trim(query);
      if trimmed == "" {
        EmptySearch();
        return;
      }
      if more && (!Truthy(was.search.cursor) || was.searchStatus == Loading) {
        return;
      }
      RequestPage(id, Search(trimmed), more, was.search, if more then was.search.cursor else None,
                  was.(searchQuery := trimmed, searchStatus := Loading,
                       search := if more then was.search else NO_LISTING));
    }

    method SearchSection(id: Source, query: string, cursor: Option<string>)
      modifies this
      ensures Now() == SearchSectionStep(old(Now()), id, query, cursor)
    {
      var section := SectionOf(Now(), id);
      if !MaySearch(FindSource(sources, id), RecordOf(Now(), id).session) {
        PutSection(id, query, section.(status := SignedOut));
        return;
      }
      var token := TakeToken(Key(id, OnSection));
      PutSection(id, query, section.(status := Loading));
      Send(PageCall(Request(id, Section(query), cursor, Epoch(Now(), id)), Truthy(cursor), section.listing, token));
    }

    /** A section that is not loading goes on from its own cursor, keeping its list. */
    method SearchMoreIn(id: Source)
      requires Valid()
      modifies this
      ensures Valid() && Now() == SearchMoreInStep(old(Now()), id)
      ensures if WantsMore(old(Now()), id)
              then SectionNoted(old(Now()), Now(), id, old(global).sections[id].listing.cursor)
              else Now() == old(Now())
      ensures WantsMore(old(Now()), id) ==> SectionGoesOn(old(Now()), Now(), id, old(global).query)
    {
      WantsExactlyWhen(Now(), id);
      SearchMoreInKeeps(Now(), id);
      if id !in global.sections {
        return;
      }
      SectionAsked(Now(), id, global.sections[id].listing.cursor);
      SectionAnswers(Now(), id, global.query, global.sections[id].listing.cursor);
      var section := global.sections[id];
      if section.status == Loading || (!Truthy(section.listing.cursor) && section.status != Errored) {
        return;
      }
      SearchSection(id, global.query, section.listing.cursor);
    }

    /** Every source that can search gets a loading section that is owed its answer. */
    method SearchEverywhere(query: string)
      requires Valid()
      modifies this
      ensures Valid() && Now() == SearchEverywhereStep(old(Now()), query)
      ensures if Trim(query) == "" then Now() == old(Now())
              else && global.query == Trim(query)
                   && (forall id :: id in global.sections <==> id in Candidates(old(sources)))
                   && (forall id :: id in global.sections ==> Waits(Now(), id) && OwedOk(Now(), id))
      ensures Trim(query) != "" ==> EverywhereAnswered(old(Now()), Now(), query)
    {
      SearchEverywhereKeeps(Now(), query);
      if Trim(query) != "" {
        SearchedEverywhere(Now(), query);
        EverywhereAnswers(Now(), query);
      }
      StartSearches(query);
    }

    method StartSearches(query: string)
      modifies this
      ensures Now() == SearchEverywhereStep(old(Now()), query)
    {
      var trimmed := Trim(query);
      if trimmed == "" {
        return;
      }
      var ids := Candidates(sources);
      view, active, top := SearchView, None, EMPTY_BROWSE;
      global := GlobalSearch(trimmed, map id | id in ids :: SectionState(Loading, NO_LISTING));
      SendStarts(ids, trimmed);
    }

    method SendStarts(ids: seq<Source>, query: string)
      modifies this
      ensures Now() == AddStarts(old(Now()), ids, query)
    {
      ghost var all := AddStarts(Now(), ids, query);
      var i := 0;
      while i < |ids|
        invariant 0 <= i <= |ids|
        invariant AddStarts(Now(), ids[i..], query) == all
      {
        assert ids[i..][1..] == ids[i + 1..];
        Send(SectionStart(ids[i], query));
        i := i + 1;
      }
    }

    /**
    A page call settles. A superseded one shows nothing; a live page is put where it belongs, behind the list as it
    stands or in its place; an expired session silences the source.
    */
    method SettlePageCall(k: nat, outcome: Outcome)
      requires Valid() && k in calls && calls[k].PageCall? && Fits(calls[k], outcome)
      modifies this
      ensures Valid() && Now() == SettleStep(old(Now()), k, outcome)
      ensures PageNoted(old(Now()), Now(), k, outcome)
      ensures if old(Live(Now(), KeyOf(calls[k].request), k)) then PageAnswered(old(Now()), Now(), k, outcome)
              else Now() == old(Now()).(calls := old(calls) - {k})
    {
      if Live(Now(), KeyOf(calls[k].request), k) {
        PageAnswers(Now(), k, outcome);
      }
      SettleKeeps(Now(), k, outcome);
      PageSettled(Now(), k, outcome);
      UsePage(k, outcome);
    }

    method UsePage(k: nat, outcome: Outcome)
      requires k in calls && calls[k].PageCall? && Fits(calls[k], outcome)
      modifies this
      ensures Now() == SettleStep(old(Now()), k, outcome)
    {
      var call := calls[k];
      var id := call.request.id;
      calls := calls - {k};
      if !Current(Now(), KeyOf(call.request), call.token) {
        return;
      }
      var was := RecordOf(Now(), id);
      match outcome {
        case PageIs(page) =>
          var listing := Extend(call.before, call.more, Reply(call.request, page));
          match call.request.feed {
            case Liked => PatchRecord(id, was.(liked := listing, likedStatus := Ready, likedLoadingMore := false));
            case Playlist(remote) =>
              var kept := was.(details := was.details[remote := listing]);
              if was.selected == Some(remote) {
                kept := kept.(detail := Some(listing), detailStatus := Ready);
              }
              PatchRecord(id, kept);
            case Search(_) => PatchRecord(id, was.(search := listing, searchStatus := Ready));
            case Section(query) => PutSection(id, query, SectionState(Ready, listing));
          }
        case Rejected(error) =>
          match call.request.feed {
            case Liked =>
              PatchRecord(id, was.(likedStatus := Errored, likedLoadingMore := false));
              NoteFailure(id, "liked", error);
            case Playlist(remote) =>
              if was.selected == Some(remote) {
                PatchRecord(id, was.(detailStatus := Errored));
              }
              NoteFailure(id, "playlist", error);
            case Search(_) =>
              PatchRecord(id, was.(searchStatus := Errored));
              NoteFailure(id, "search", error);
            case Section(query) =>
              PutSection(id, query, SectionOf(Now(), id).(status := Errored));
              NoteFailure(id, "search", error);
          }
      }
    }

    /** A part of a search everywhere starts; its section, if it is still of that search, is owed its answer. */
    method SettleSectionStart(k: nat)
      requires Valid() && k in calls && calls[k].SectionStart?
      modifies this
      ensures Valid() && Now() == SettleStep(old(Now()), k, Done)
      ensures old(calls)[k].query == old(global).query ==> OwedOk(Now(), old(calls)[k].id)
      ensures PartAnswered(old(Now()).(calls := old(calls) - {k}), Now(), old(calls)[k].id, old(calls)[k].query)
    {
      PartStarts(DropCall(Now(), k), calls[k].id, calls[k].query);
      SettleKeeps(Now(), k, Done);
      if calls[k].query == global.query {
        PartStarted(Now(), k);
      }
      StartPart(k);
    }

    method StartPart(k: nat)
      requires k in calls && calls[k].SectionStart?
      modifies this
      ensures Now() == SettleStep(old(Now()), k, Done)
    {
      var call := calls[k];
      calls := calls - {k};
      if RecordOf(Now(), call.id).sessionStatus == Idle {
        RequestSession(call.id, Some(call.query));
      } else {
        SearchSection(call.id, call.query, None);
      }
    }

    // ---------- sessions and sign-in ----------

    /** The session is asked for, and the record waits for it; no list changes. */
    method LoadSession(id: Source)
      requires Valid()
      modifies this
      ensures Valid() && Now() == LoadSessionStep(old(Now()), id, None)
      ensures ListsStay(old(Now()), Now(), None) && RecordOf(Now(), id).sessionStatus == Loading
      ensures Live(Now(), Key(id, OnSession), old(nextId)) && calls[old(nextId)].SessionCall?
      ensures Shows(old(Now()), Now(), id, old(RecordOf(Now(), id)).(sessionStatus := Loading))
    {
      LoadSessionAnswers(Now(), id, None);
      LoadSessionKeeps(Now(), id, None);
      SessionAsked(Now(), id, None);
      RequestSession(id, None);
    }

    method RequestSession(id: Source, thenSearch: Option<string>)
      modifies this
      ensures Now() == LoadSessionStep(old(Now()), id, thenSearch)
    {
      var token := TakeToken(Key(id, OnSession));
      PatchRecord(id, RecordOf(Now(), id).(sessionStatus := Loading));
      Send(SessionCall(id, token, thenSearch));
    }

    /**
    A session call settles: a live one brings its session, a superseded one shows nothing, and a search that waited
    for it starts next.
    */
    method SettleSessionCall(k: nat, outcome: Outcome)
      requires Valid() && k in calls && calls[k].SessionCall? && Fits(calls[k], outcome)
      modifies this
      ensures Valid() && Now() == SettleStep(old(Now()), k, outcome)
      ensures SessionNoted(old(Now()), Now(), k, outcome)
      ensures old(Live(Now(), Key(calls[k].id, OnSession), k)) ==> SessionAnswered(old(Now()), Now(), k, outcome)
    {
      if Live(Now(), Key(calls[k].id, OnSession), k) {
        SessionAnswers(Now(), k, outcome);
      }
      SettleKeeps(Now(), k, outcome);
      SessionSettles(Now(), k, outcome);
      TakeSession(k, outcome);
    }

    method TakeSession(k: nat, outcome: Outcome)
      requires k in calls && calls[k].SessionCall? && Fits(calls[k], outcome)
      modifies this
      ensures Now() == SettleStep(old(Now()), k, outcome)
    {
      var call := calls[k];
      calls := calls - {k};
      UseSession(call, outcome);
      if call.thenSearch.Some? {
        Send(SectionStart(call.id, call.thenSearch.value));
      }
    }

    method UseSession(call: Call, outcome: Outcome)
      requires call.SessionCall? && Fits(call, outcome)
      modifies this
      ensures Now() == SettleSession(old(Now()), call.(thenSearch := None), outcome)
    {
      if !Current(Now(), Key(call.id, OnSession), call.token) {
        return;
      }
      var was := RecordOf(Now(), call.id);
      match outcome {
        case SessionIs(session) => PatchRecord(call.id, was.(session := Some(session), sessionStatus := Ready));
        case Rejected(error) =>
          PatchRecord(call.id, was.(sessionStatus := Errored));
          NoteFailure(call.id, "session", error);
      }
    }

    /**
    No part of a sign-in loop is left at the source, and the stored challenge is being cancelled at the backend.
    */
    method CancelSignIn(id: Source, thenOpen: bool)
      requires Valid()
      modifies this
      ensures Valid() && Now() == CancelSignInStep(old(Now()), id, thenOpen)
      ensures NoLoop(Now(), id) && CancelSent(old(Now()), Now(), id, thenOpen)
      ensures var was := old(RecordOf(Now(), id));
              Shows(old(Now()), Now(), id, if was.challenge.None? then was.(authStatus := Idle) else was)
    {
      CancelSignInAnswers(Now(), id, thenOpen);
      CancelSignInKeeps(Now(), id, thenOpen);
      SignInCancelled(Now(), id, thenOpen);
      EndSignIn(id, thenOpen);
    }

    method EndSignIn(id: Source, thenOpen: bool)
      modifies this
      ensures Now() == CancelSignInStep(old(Now()), id, thenOpen)
    {
      var token := TakeToken(Key(id, OnAuth));
      ClearAuthTimer(id);
      var record := RecordOf(Now(), id);
      if record.challenge.None? {
        PatchRecord(id, record.(authStatus := Idle));
        if thenOpen {
          Send(OpenAfterCancel(id));
        }
      } else {
        Send(CancelCall(id, record.challenge.value, token, thenOpen));
      }
    }

    /**
    A cancellation settles: a live one that succeeds leaves its challenge stored no longer, a superseded one shows
    nothing.
    */
    method SettleCancelCall(k: nat, outcome: Outcome)
      requires Valid() && k in calls && calls[k].CancelCall? && Fits(calls[k], outcome)
      modifies this
      ensures Valid() && Now() == SettleStep(old(Now()), k, outcome)
      ensures CancelNoted(old(Now()), Now(), k, outcome)
      ensures old(Live(Now(), Key(calls[k].id, OnAuth), k)) ==> CancelAnswered(old(Now()), Now(), k, outcome)
    {
      if Live(Now(), Key(calls[k].id, OnAuth), k) {
        CancelAnswers(Now(), k, outcome);
      }
      SettleKeeps(Now(), k, outcome);
      CancelSettles(Now(), k, outcome);
      TakeCancellation(k, outcome);
    }

    method TakeCancellation(k: nat, outcome: Outcome)
      requires k in calls && calls[k].CancelCall? && Fits(calls[k], outcome)
      modifies this
      ensures Now() == SettleStep(old(Now()), k, outcome)
    {
      var call := calls[k];
      calls := calls - {k};
      UseCancellation(call, outcome);
      if call.thenOpen {
        Send(OpenAfterCancel(call.id));
      }
    }

    method UseCancellation(call: Call, outcome: Outcome)
      requires call.CancelCall? && Fits(call, outcome)
      modifies this
      ensures Now() == CancelSettled(old(Now()), call, outcome)
    {
      var was := RecordOf(Now(), call.id);
      if Current(Now(), Key(call.id, OnAuth), call.token) && was.challenge == Some(call.challenge) {
        match outcome {
          case Done => PatchRecord(call.id, was.(challenge := None, authStatus := Idle));
          case Rejected(error) => NoteFailure(call.id, "auth", error);
        }
      }
    }

    /** The sign-in opens unless a challenge is stored after all. */
    method SettleOpenAfterCancel(k: nat)
      requires Valid() && k in calls && calls[k].OpenAfterCancel?
      modifies this
      ensures Valid() && Now() == SettleStep(old(Now()), k, Done)
      ensures OpeningNoted(old(Now()), Now(), k)
      ensures var id := old(calls)[k].id; var was := old(RecordOf(Now(), calls[k].id));
              was.challenge.None? ==>
                Shows(old(Now()), Now(), id,
                      was.(authStatus := Loading, signInError := None, errors := was.errors - {"auth"}))
    {
      if RecordOf(Now(), calls[k].id).challenge.None? {
        OpeningShows(Now(), k);
      }
      SettleKeeps(Now(), k, Done);
      OpeningFollows(Now(), k);
      OpenUnlessStored(k);
    }

    method OpenUnlessStored(k: nat)
      requires k in calls && calls[k].OpenAfterCancel?
      modifies this
      ensures Now() == SettleStep(old(Now()), k, Done)
    {
      var id := calls[k].id;
      calls := calls - {k};
      var was := RecordOf(Now(), id);
      if was.challenge.Some? {
        return;
      }
      var token := TakeToken(Key(id, OnAuth));
      PatchRecord(id, was.(authStatus := Loading, signInError := None, errors := was.errors - {"auth"}));
      Send(OpenCall(id, token));
    }

    /**
    An opening settles: a challenge in time is stored and polled for, a late one is stored nowhere and cancelled.
    */
    method SettleOpenCall(k: nat, outcome: Outcome)
      requires Valid() && k in calls && calls[k].OpenCall? && Fits(calls[k], outcome)
      modifies this
      ensures Valid() && Now() == SettleStep(old(Now()), k, outcome)
      ensures OpenNoted(old(Now()), Now(), k, outcome)
      ensures old(Live(Now(), Key(calls[k].id, OnAuth), k)) ==> OpenAnswered(old(Now()), Now(), k, outcome)
    {
      if Live(Now(), Key(calls[k].id, OnAuth), k) {
        OpenAnswers(Now(), k, outcome);
      }
      SettleKeeps(Now(), k, outcome);
      OpenSettles(Now(), k, outcome);
      TakeChallenge(k, outcome);
    }

    method TakeChallenge(k: nat, outcome: Outcome)
      requires k in calls && calls[k].OpenCall? && Fits(calls[k], outcome)
      modifies this
      ensures Now() == SettleStep(old(Now()), k, outcome)
    {
      var call := calls[k];
      calls := calls - {k};
      var was := RecordOf(Now(), call.id);
      var current := Current(Now(), Key(call.id, OnAuth), call.token);
      match outcome {
        case ChallengeIs(challenge) =>
          if !current {
            Send(LateCancelCall(call.id, challenge));
            return;
          }
          PatchRecord(call.id, was.(challenge := Some(challenge), authStatus := Ready));
          ArmTimer(call.id, challenge, call.token);
        case Rejected(error) =>
          if current {
            PatchRecord(call.id, was.(authStatus := Errored));
            NoteFailure(call.id, "auth", error);
          }
      }
    }

    /**
    The timer polls for the stored challenge. The test of its token and challenge never fails: what would outdate them
    has cleared the timer.
    */
    method FirePollTimer(k: nat)
      requires Valid() && k in calls && calls[k].PollTimer?
      modifies this
      ensures Valid() && Now() == SettleStep(old(Now()), k, Done)
      ensures var call := old(calls)[k];
              && Unseen(old(Now()), Now())
              && calls == (old(calls) - {k})[old(nextId) := PollCall(call.id, call.challenge, call.token)]
              && RecordOf(Now(), call.id).challenge == Some(call.challenge) && InLoop(Now(), call.id, old(nextId))
    {
      SettleKeeps(Now(), k, Done);
      TimerPolls(Now(), k);
      Poll(k);
    }

    method Poll(k: nat)
      requires k in calls && calls[k].PollTimer?
      modifies this
      ensures Now() == SettleStep(old(Now()), k, Done)
    {
      var call := calls[k];
      calls := calls - {k};
      if !Current(Now(), Key(call.id, OnAuth), call.token)
         || RecordOf(Now(), call.id).challenge != Some(call.challenge) {
        return;
      }
      Send(PollCall(call.id, call.challenge, call.token));
    }

    /**
    A poll settles: a superseded one shows nothing, a pending one waits again, any other ends the loop, and a session
    it brings is the source's fresh start.
    */
    method SettlePollCall(k: nat, outcome: Outcome)
      requires Valid() && k in calls && calls[k].PollCall? && Fits(calls[k], outcome)
      modifies this
      ensures Valid() && Now() == SettleStep(old(Now()), k, outcome)
      ensures PollNoted(old(Now()), Now(), k, outcome)
      ensures if old(Live(Now(), Key(calls[k].id, OnAuth), k)) then PollAnswered(old(Now()), Now(), k, outcome)
              else Now() == old(Now()).(calls := old(calls) - {k})
    {
      if Live(Now(), Key(calls[k].id, OnAuth), k) {
        PollAnswers(Now(), k, outcome);
      }
      SettleKeeps(Now(), k, outcome);
      PollSettles(Now(), k, outcome);
      UsePoll(k, outcome);
    }

    method UsePoll(k: nat, outcome: Outcome)
      requires k in calls && calls[k].PollCall? && Fits(calls[k], outcome)
      modifies this
      ensures Now() == SettleStep(old(Now()), k, outcome)
    {
      var call := calls[k];
      calls := calls - {k};
      if !Current(Now(), Key(call.id, OnAuth), call.token) {
        return;
      }
      var was := RecordOf(Now(), call.id);
      match outcome {
        case PollIs(Complete(Some(session))) => SignIn(call.id, session);
        case PollIs(Complete(None)) =>
          PatchRecord(call.id, was.(challenge := None, errors := was.errors["auth" := "complete"]));
        case PollIs(Pending) => ArmTimer(call.id, call.challenge, call.token);
        case PollIs(Other(state)) =>
          PatchRecord(call.id, was.(challenge := None, errors := was.errors["auth" := state]));
        case Rejected(error) =>
          PatchRecord(call.id, was.(challenge := None, authStatus := Idle));
          NoteFailure(call.id, "auth", error);
      }
    }

    /**
    A sign-in is accepted while one is under way for an enabled source, which then starts over with the session.
    */
    method AcceptSignIn(id: Source, session: Session)
      requires Valid()
      modifies this
      ensures Valid() && Now() == AcceptSignInStep(old(Now()), id, session)
      ensures if TakesSignIn(old(Now()), id)
              then && SignedIn(old(Now()), Now(), id, session) && SameSections(old(Now()), Now())
                   && Shows(old(Now()), Now(), id, EMPTY_BROWSE.(session := Some(session), sessionStatus := Ready))
              else Now() == old(Now())
    {
      AcceptsExactlyWhen(Now(), id);
      AcceptShows(Now(), id, session);
      AcceptSignInKeeps(Now(), id, session);
      SignInAccepted(Now(), id, session);
      SignIn(id, session);
    }

    method SignIn(id: Source, session: Session)
      modifies this
      ensures Now() == AcceptSignInStep(old(Now()), id, session)
    {
      var record := RecordOf(Now(), id);
      if record.challenge.None? && record.authStatus != Loading {
        return;
      }
      if !(exists source <- sources :: source.id == id && source.enabled && source.installed) {
        return;
      }
      InvalidateSource(id);
      PatchRecord(id, EMPTY_BROWSE.(session := Some(session), sessionStatus := Ready));
    }

    /** The error of the stored challenge is shown and its loop is over. */
    method SetSignInError(id: Source, challenge: Challenge, message: string)
      requires Valid()
      modifies this
      ensures Valid() && Now() == SetSignInErrorStep(old(Now()), id, challenge, message)
      ensures ErrorNoted(old(Now()), Now(), id, challenge, message)
      ensures var was := old(RecordOf(Now(), id));
              old(IsUsable(Now(), id)) && was.challenge == Some(challenge) ==>
                Shows(old(Now()), Now(), id,
                      was.(signInError := Some(message), challenge := None, authStatus := Errored))
    {
      UsableExactlyWhen(Now(), id);
      SignInErrorAnswers(Now(), id, challenge, message);
      SetSignInErrorKeeps(Now(), id, challenge, message);
      SignInFailed(Now(), id, challenge, message);
      FailSignIn(id, challenge, message);
    }

    method FailSignIn(id: Source, challenge: Challenge, message: string)
      modifies this
      ensures Now() == SetSignInErrorStep(old(Now()), id, challenge, message)
    {
      var record := RecordOf(Now(), id);
      if !Usable(FindSource(sources, id)) || record.challenge != Some(challenge) {
        return;
      }
      var token := TakeToken(Key(id, OnAuth));
      ClearAuthTimer(id);
      authTimers := authTimers - {id};
      PatchRecord(id, record.(signInError := Some(message), challenge := None, authStatus := Errored));
    }

    method ResetRecord(id: Source, record: Browse)
      modifies this
      ensures Now() == Reset(old(Now()), id, record)
    {
      InvalidateSource(id);
      PatchRecord(id, record);
    }

    /** A successful sign-out starts the source over, and nothing it had out is listened to. */
    method SettleSignOutCall(k: nat, outcome: Outcome)
      requires Valid() && k in calls && calls[k].SignOutCall? && Fits(calls[k], outcome)
      modifies this
      ensures Valid() && Now() == SettleStep(old(Now()), k, outcome)
      ensures var id := old(calls)[k].id;
              && (outcome.SessionIs? || outcome.error.expired ==> Silent(Now(), id))
              && (outcome.SessionIs? ==>
                    RecordOf(Now(), id) == EMPTY_BROWSE.(session := Some(outcome.session), sessionStatus := Ready))
      ensures SignOutAnswered(old(Now()), Now(), old(calls)[k].id, outcome)
    {
      SignOutAnswers(Now(), k, outcome);
      SettleKeeps(Now(), k, outcome);
      SignedOutSettled(Now(), k, outcome);
      TakeSignOut(k, outcome);
    }

    method TakeSignOut(k: nat, outcome: Outcome)
      requires k in calls && calls[k].SignOutCall? && Fits(calls[k], outcome)
      modifies this
      ensures Now() == SettleStep(old(Now()), k, outcome)
    {
      var id := calls[k].id;
      calls := calls - {k};
      match outcome {
        case SessionIs(session) => ResetRecord(id, EMPTY_BROWSE.(session := Some(session), sessionStatus := Ready));
        case Rejected(error) => NoteFailure(id, "auth", error);
      }
    }
  }
}
