/**
Which sections of the global search are owed an answer. A section that is loading waits for its own part of
the search; a reset of its source, or a part of an older search that starts late, can leave it waiting for
nothing.
*/
module CatalogBrowseSections {
  import opened Basics
  import opened CatalogBrowse
  import opened CatalogBrowseProofs
  import opened CatalogBrowseRuns

  // ---------- resets, event by event ----------

  predicate Expires(outcome: Outcome) {
    outcome.Rejected? && outcome.error.expired
  }

  /** A sign-in is accepted while one is under way, for a source that is there and enabled. */
  predicate Accepts(s: State, id: Source) {
    && (RecordOf(s, id).challenge.Some? || RecordOf(s, id).authStatus == Loading)
    && (exists source <- s.sources :: source.id == id && source.enabled && source.installed)
  }

  /** The settlement of this call is looked at. */
  predicate Heeded(s: State, k: nat)
    requires k in s.calls
  {
    match s.calls[k]
    case SignOutCall(_) => true
    case CancelCall(id, challenge, _, _) =>
      Live(s, Key(id, OnAuth), k) && RecordOf(s, id).challenge == Some(challenge)
    case call => Held(call).Some? && Live(s, Held(call).value, k)
  }

  /** An update of a source the store knows that takes the source away. */
  predicate Goes(s: State, source: SourceInfo) {
    var previous := FindSource(s.sources, source.id);
    && previous.Some?
    && (|| !source.installed || (!source.enabled && previous.value.enabled)
        || source.state == Unavailable || source.state == UpdateRequired)
  }

  /** The event resets source `id`: its source goes, a sign-in or sign-out succeeds, or its session is found expired. */
  predicate Resets(s: State, e: Event, id: Source) {
    match e
    case ApplySource(source) => source.id == id && Goes(s, source)
    case AcceptSignIn(other, _) => other == id && Accepts(s, id)
    case Settle(k, outcome) =>
      && k in s.calls && IdOf(s.calls[k]) == id && Heeded(s, k)
      && (|| Expires(outcome)
          || (s.calls[k].SignOutCall? && outcome.SessionIs?)
          || (s.calls[k].PollCall? && outcome.PollIs? && outcome.result.Complete? && outcome.result.session.Some?
              && Accepts(s, id)))
    case _ => false
  }

  // ---------- what a section waits for ----------

  /** A part of the search for `query` at source `id` that is still to start, perhaps after its session is loaded. */
  predicate IsPart(call: Call, id: Source, query: string) {
    || call == SectionStart(id, query)
    || (call.SessionCall? && call.id == id && call.thenSearch == Some(query))
  }

  predicate IsSectionPage(call: Call, id: Source, query: string) {
    call.PageCall? && call.request.id == id && call.request.feed == Section(query)
  }

  ghost predicate PartOut(s: State, id: Source, query: string) {
    exists k :: k in s.calls && IsPart(s.calls[k], id, query)
  }

  ghost predicate PageOut(s: State, id: Source, query: string) {
    exists k :: Live(s, Key(id, OnSection), k) && IsSectionPage(s.calls[k], id, query)
  }

  /** The source's section of the search shown is loading. */
  predicate Waits(s: State, id: Source) {
    id in s.global.sections && s.global.sections[id].status == Loading
  }

  /** A section that waits is owed an answer: its page is out and live, or its part is still to start. */
  ghost predicate OwedOk(s: State, id: Source) {
    Waits(s, id) ==> PageOut(s, id, s.global.query) || PartOut(s, id, s.global.query)
  }

  // ---------- what strands a section, and what frees it ----------

  /** A part of another search starts and takes the token from the page of the search shown. */
  predicate Overtakes(s: State, e: Event, id: Source) {
    && e.Settle? && e.call in s.calls && s.calls[e.call].SectionStart? && s.calls[e.call].id == id
    && s.calls[e.call].query != s.global.query
    && RecordOf(s, id).sessionStatus != Idle && MaySearch(FindSource(s.sources, id), RecordOf(s, id).session)
  }

  /** The section's own page settles, so a failure shows in the section. */
  predicate AnswersSection(s: State, e: Event, id: Source) {
    && e.Settle? && e.call in s.calls && IsSectionPage(s.calls[e.call], id, s.global.query)
    && Live(s, Key(id, OnSection), e.call)
  }

  /** The waiting section's page is taken from it and no part of its search is still to start. */
  ghost predicate Strands(s: State, e: Event, id: Source) {
    && Waits(s, id) && !PartOut(s, id, s.global.query)
    && ((Resets(s, e, id) && !AnswersSection(s, e, id)) || Overtakes(s, e, id))
  }

  /** A new search everywhere puts new sections in place of all. */
  predicate Restarts(e: Event) {
    e.SearchEverywhere? && Trim(e.query) != ""
  }

  /** Whether the section will be owed its answer after the event. */
  ghost predicate OwedAfter(s: State, e: Event, id: Source) {
    if OwedOk(s, id) then !Strands(s, e, id) else Restarts(e)
  }

  // ---------- steps that do not touch the section ----------

  predicate Concerns(call: Call, id: Source, query: string) {
    IsPart(call, id, query) || IsSectionPage(call, id, query)
  }

  /** The calls that concern the section are the same, and so is its token. */
  ghost predicate Kept(s: State, t: State, id: Source, query: string) {
    && (Key(id, OnSection) in s.generations <==> Key(id, OnSection) in t.generations)
    && Generation(s, Key(id, OnSection)) == Generation(t, Key(id, OnSection))
    && (forall k ::
          (k in s.calls && Concerns(s.calls[k], id, query)) <==> (k in t.calls && Concerns(t.calls[k], id, query)))
    && (forall k :: k in s.calls && Concerns(s.calls[k], id, query) && k in t.calls ==> s.calls[k] == t.calls[k])
  }

  ghost predicate Untouched(s: State, t: State, id: Source) {
    && t.global.query == s.global.query && (Waits(s, id) <==> Waits(t, id)) && Epoch(t, id) == Epoch(s, id)
    && Kept(s, t, id, s.global.query)
  }

  lemma KeptOut(s: State, t: State, id: Source, query: string)
    requires Kept(s, t, id, query)
    ensures PartOut(s, id, query) <==> PartOut(t, id, query)
    ensures PageOut(s, id, query) <==> PageOut(t, id, query)
  {
    if PartOut(s, id, query) {
      var k :| k in s.calls && IsPart(s.calls[k], id, query);
      assert k in t.calls && IsPart(t.calls[k], id, query);
    }
    if PartOut(t, id, query) {
      var k :| k in t.calls && IsPart(t.calls[k], id, query);
      assert k in s.calls && IsPart(s.calls[k], id, query);
    }
    if PageOut(s, id, query) {
      var k :| Live(s, Key(id, OnSection), k) && IsSectionPage(s.calls[k], id, query);
      assert Live(t, Key(id, OnSection), k) && IsSectionPage(t.calls[k], id, query);
    }
    if PageOut(t, id, query) {
      var k :| Live(t, Key(id, OnSection), k) && IsSectionPage(t.calls[k], id, query);
      assert Live(s, Key(id, OnSection), k) && IsSectionPage(s.calls[k], id, query);
    }
  }

  lemma UntouchedOwed(s: State, t: State, id: Source)
    requires Untouched(s, t, id)
    ensures OwedOk(s, id) <==> OwedOk(t, id)
  {
    KeptOut(s, t, id, s.global.query);
  }

  lemma UntouchedThrough(s: State, t: State, u: State, id: Source)
    requires Untouched(s, t, id) && Untouched(t, u, id)
    ensures Untouched(s, u, id)
  {
    forall k ensures (k in s.calls && Concerns(s.calls[k], id, s.global.query))
                     <==> (k in u.calls && Concerns(u.calls[k], id, s.global.query)) {
      assert (k in s.calls && Concerns(s.calls[k], id, s.global.query))
             <==> (k in t.calls && Concerns(t.calls[k], id, s.global.query));
    }
  }

  lemma UntouchedPatch(s: State, id: Source, other: Source, b: Browse)
    ensures Untouched(s, Patch(s, other, b), id)
  {
  }

  lemma UntouchedBump(s: State, id: Source, key: Key)
    requires key != Key(id, OnSection)
    ensures Untouched(s, Bump(s, key), id)
  {
  }

  lemma UntouchedAdd(s: State, id: Source, call: Call)
    requires Tokens(s) && !Concerns(call, id, s.global.query)
    ensures Untouched(s, AddCall(s, call), id)
  {
  }

  lemma UntouchedDrop(s: State, id: Source, k: nat)
    requires k in s.calls ==> !Concerns(s.calls[k], id, s.global.query)
    ensures Untouched(s, DropCall(s, k), id)
  {
  }

  lemma UntouchedClear(s: State, id: Source, other: Source)
    requires Tokens(s)
    ensures Untouched(s, ClearTimer(s, other), id) && Untouched(s, ForgetTimer(s, other), id)
  {
  }

  lemma UntouchedReset(s: State, id: Source, other: Source, b: Browse)
    requires Tokens(s) && other != id
    ensures Untouched(s, Reset(s, other, b), id)
  {
    UntouchedClear(s, id, other);
    assert Untouched(ForgetTimer(s, other), Invalidate(s, other), id);
    UntouchedThrough(s, ForgetTimer(s, other), Invalidate(s, other), id);
    UntouchedPatch(Invalidate(s, other), id, other, b);
    UntouchedThrough(s, Invalidate(s, other), Reset(s, other, b), id);
  }

  lemma UntouchedFail(s: State, id: Source, other: Source, slot: string, error: Error)
    requires Tokens(s) && (other == id ==> !error.expired)
    ensures Untouched(s, Fail(s, other, slot, error), id)
  {
    var was := RecordOf(s, other);
    var b := was.(errors := was.errors[slot := error.message]);
    UntouchedPatch(s, id, other, b);
    if error.expired {
      var c := EMPTY_BROWSE.(sessionStatus := Ready, session := Some(Session(false, true)));
      UntouchedReset(Patch(s, other, b), id, other, c);
      UntouchedThrough(s, Patch(s, other, b), Reset(Patch(s, other, b), other, c), id);
    }
  }

  lemma UntouchedFailAfter(s: State, id: Source, other: Source, b: Browse, slot: string, error: Error)
    requires Tokens(s) && (other == id ==> !error.expired)
    ensures Untouched(s, Fail(Patch(s, other, b), other, slot, error), id)
  {
    UntouchedPatch(s, id, other, b);
    UntouchedFail(Patch(s, other, b), id, other, slot, error);
    UntouchedThrough(s, Patch(s, other, b), Fail(Patch(s, other, b), other, slot, error), id);
  }

  /** Taking a token, patching a record and sending a call, none of it for the section. */
  lemma UntouchedSent(s: State, id: Source, key: Key, b: Browse, call: Call)
    requires Tokens(s) && key != Key(id, OnSection) && !Concerns(call, id, s.global.query)
    ensures Untouched(s, AddCall(Patch(Bump(s, key), key.id, b), call), id)
  {
    var t := AddCall(Patch(Bump(s, key), key.id, b), call);
    forall k ensures (k in s.calls && Concerns(s.calls[k], id, s.global.query))
                     <==> (k in t.calls && Concerns(t.calls[k], id, s.global.query)) {
    }
  }

  lemma UntouchedPage(s: State, id: Source, other: Source, feed: Feed, more: bool, before: Listing,
                      cursor: Option<string>, b: Browse)
    requires Tokens(s) && !feed.Section?
    ensures Untouched(s, SendPage(s, other, feed, more, before, cursor, b), id)
  {
    var key := Key(other, OperationOf(feed));
    UntouchedSent(s, id, key, b,
      PageCall(Request(other, feed, cursor, Epoch(s, other)), more, before, Generation(Bump(s, key), key)));
  }

  lemma UntouchedSet(s: State, id: Source, other: Source, query: string, section: SectionState)
    requires other != id || query != s.global.query
    ensures Untouched(s, SetSection(s, other, query, section), id)
  {
  }

  lemma UntouchedSectionSent(s: State, id: Source, other: Source, query: string, call: Call, section: SectionState)
    requires Tokens(s) && other != id && call.PageCall? && call.request.id == other
    ensures Untouched(s, AddCall(SetSection(Bump(s, Key(other, OnSection)), other, query, section), call), id)
  {
    var bumped := Bump(s, Key(other, OnSection));
    var shown := SetSection(bumped, other, query, section);
    UntouchedBump(s, id, Key(other, OnSection));
    UntouchedSet(bumped, id, other, query, section);
    UntouchedThrough(s, bumped, shown, id);
    UntouchedPlain(s, shown, id, call);
    UntouchedThrough(s, shown, AddCall(shown, call), id);
  }

  lemma UntouchedSection(s: State, id: Source, other: Source, query: string, cursor: Option<string>)
    requires Tokens(s) && other != id
    ensures Untouched(s, SearchSectionStep(s, other, query, cursor), id)
  {
    var section := SectionOf(s, other);
    var call := PageCall(Request(other, Section(query), cursor, Epoch(s, other)), Truthy(cursor), section.listing,
                         Generation(Bump(s, Key(other, OnSection)), Key(other, OnSection)));
    UntouchedSet(s, id, other, query, section.(status := SignedOut));
    UntouchedSectionSent(s, id, other, query, call, section.(status := Loading));
  }

  lemma UntouchedSession(s: State, id: Source, other: Source, thenSearch: Option<string>)
    requires Tokens(s) && (other == id ==> thenSearch != Some(s.global.query))
    ensures Untouched(s, LoadSessionStep(s, other, thenSearch), id)
  {
    var key := Key(other, OnSession);
    UntouchedSent(s, id, key, RecordOf(s, other).(sessionStatus := Loading),
                  SessionCall(other, Generation(Bump(s, key), key), thenSearch));
  }

  lemma UntouchedLiked(s: State, id: Source, more: bool)
    requires Tokens(s)
    ensures Untouched(s, LoadLikedStep(s, more), id)
  {
    var other := ActiveId(s);
    var was := RecordOf(s, other);
    UntouchedPage(s, id, other, Liked, more, was.liked, if more then was.liked.cursor else None,
                  was.(likedStatus := Loading, likedLoadingMore := more));
  }

  lemma UntouchedPlaylist(s: State, id: Source, remote: Remote, more: bool)
    requires Tokens(s)
    ensures Untouched(s, OpenPlaylistStep(s, remote, more), id)
  {
    var other := ActiveId(s);
    var was := RecordOf(s, other);
    var before := if remote in was.details then was.details[remote] else NO_LISTING;
    UntouchedPatch(s, id, other, Shown(was, remote, more));
    UntouchedPage(s, id, other, Playlist(remote), more, before, if more then before.cursor else None,
                  Shown(was, remote, more));
  }

  lemma UntouchedClearSearch(s: State, id: Source)
    ensures Untouched(s, ClearSearchStep(s), id)
  {
    var other := ActiveId(s);
    var bumped := Bump(s, Key(other, OnSearch));
    UntouchedBump(s, id, Key(other, OnSearch));
    UntouchedPatch(bumped, id, other,
                   RecordOf(s, other).(searchQuery := "", search := NO_LISTING, searchStatus := Idle));
    UntouchedThrough(s, bumped, ClearSearchStep(s), id);
  }

  lemma UntouchedSearch(s: State, id: Source, query: string, more: bool)
    requires Tokens(s)
    ensures Untouched(s, RunSearchStep(s, query, more), id)
  {
    var other := ActiveId(s);
    var was := RecordOf(s, other);
    UntouchedClearSearch(s, id);
    UntouchedPage(s, id, other, Search(Trim(query)), more, was.search, if more then was.search.cursor else None,
                  Searching(was, Trim(query), more));
  }

  lemma UntouchedIdle(s: State, id: Source, other: Source, thenOpen: bool)
    requires Tokens(s)
    ensures var idle := RecordOf(s, other).(authStatus := Idle);
            Untouched(s, ContinueOpen(Launch(s, Key(other, OnAuth), idle, None), other, thenOpen), id)
  {
    var key := Key(other, OnAuth);
    var launched := Launch(s, key, RecordOf(s, other).(authStatus := Idle), None);
    UntouchedBump(s, id, key);
    UntouchedPatch(Bump(s, key), id, other, RecordOf(s, other).(authStatus := Idle));
    UntouchedThrough(s, Bump(s, key), launched, id);
    if thenOpen {
      UntouchedPlain(s, launched, id, OpenAfterCancel(other));
      UntouchedThrough(s, launched, AddCall(launched, OpenAfterCancel(other)), id);
    }
  }

  lemma UntouchedCancelSent(s: State, id: Source, key: Key, call: Call)
    requires Tokens(s) && key.operation.OnAuth? && call.CancelCall?
    ensures Untouched(s, AddCall(Bump(s, key), call), id)
  {
    UntouchedBump(s, id, key);
    UntouchedPlain(s, Bump(s, key), id, call);
    UntouchedThrough(s, Bump(s, key), AddCall(Bump(s, key), call), id);
  }

  lemma UntouchedCancel(s: State, id: Source, other: Source, thenOpen: bool)
    requires Inv(s)
    ensures Untouched(s, CancelSignInStep(s, other, thenOpen), id)
  {
    UntouchedClear(s, id, other);
    UntouchedAfterClear(s, id, other, thenOpen);
    UntouchedThrough(s, ClearTimer(s, other), CancelSignInStep(s, other, thenOpen), id);
  }

  lemma UntouchedAfterClear(s: State, id: Source, other: Source, thenOpen: bool)
    requires Inv(s)
    ensures Untouched(ClearTimer(s, other), CancelSignInStep(s, other, thenOpen), id)
  {
    var c := ClearTimer(s, other);
    ClearKeeps(s, other);
    var b := RecordOf(s, other);
    if b.challenge.None? {
      CancelIdleShape(s, other, thenOpen);
      UntouchedIdle(c, id, other, thenOpen);
    } else {
      CancelSentShape(s, other, thenOpen);
      UntouchedCancelSent(c, id, Key(other, OnAuth),
                          CancelCall(other, b.challenge.value, Generation(s, Key(other, OnAuth)) + 1, thenOpen));
    }
  }

  /** A call sent after some change that sends none. */
  lemma UntouchedPlain(s: State, t: State, id: Source, call: Call)
    requires Tokens(s) && t.calls == s.calls && t.nextId == s.nextId && !Concerns(call, id, t.global.query)
    ensures Untouched(t, AddCall(t, call), id)
  {
  }

  lemma UntouchedLaunched(s: State, id: Source, key: Key, b: Browse)
    requires key.operation.OnAuth?
    ensures Untouched(s, Launch(s, key, b, None), id)
  {
    UntouchedBump(s, id, key);
    UntouchedPatch(Bump(s, key), id, key.id, b);
    UntouchedThrough(s, Bump(s, key), Patch(Bump(s, key), key.id, b), id);
  }

  lemma UntouchedSignInError(s: State, id: Source, other: Source, challenge: Challenge, message: string)
    requires Tokens(s)
    ensures Untouched(s, SetSignInErrorStep(s, other, challenge, message), id)
  {
    var b := RecordOf(s, other).(signInError := Some(message), challenge := None, authStatus := Errored);
    var f := ForgetTimer(s, other);
    UntouchedClear(s, id, other);
    UntouchedLaunched(f, id, Key(other, OnAuth), b);
    UntouchedThrough(s, f, Launch(f, Key(other, OnAuth), b, None), id);
    SetSignInErrorShape(s, other, b);
  }

  lemma UntouchedSources(s: State, id: Source, sources: seq<SourceInfo>)
    ensures Untouched(s, s.(sources := sources), id)
  {
  }

  lemma UntouchedApply(s: State, id: Source, source: SourceInfo)
    requires Tokens(s) && !Resets(s, ApplySource(source), id)
    ensures Untouched(s, ApplySourceStep(s, source), id)
  {
    var t := ApplySourceStep(s, source);
    if Goes(s, source) {
      var r := Reset(s, source.id, EMPTY_BROWSE);
      UntouchedReset(s, id, source.id, EMPTY_BROWSE);
      UntouchedSources(r, id, t.sources);
      UntouchedThrough(s, r, r.(sources := t.sources), id);
    } else {
      UntouchedSources(s, id, t.sources);
    }
  }

  lemma UntouchedAccept(s: State, id: Source, other: Source, session: Session)
    requires Tokens(s) && (other == id ==> !Accepts(s, id))
    ensures Untouched(s, AcceptSignInStep(s, other, session), id)
  {
    if other != id {
      UntouchedReset(s, id, other, EMPTY_BROWSE.(session := Some(session), sessionStatus := Ready));
    }
  }

  lemma MoreUntouched(s: State, other: Source, id: Source)
    requires Tokens(s) && other != id
    ensures Untouched(s, SearchMoreInStep(s, other), id)
  {
    if other in s.global.sections {
      UntouchedSection(s, id, other, s.global.query, s.global.sections[other].listing.cursor);
    }
  }

  lemma ApplyUntouched(s: State, source: SourceInfo, id: Source)
    requires Tokens(s) && !Resets(s, ApplySource(source), id)
    ensures Untouched(s, ApplySourceStep(s, source), id)
  {
    UntouchedApply(s, id, source);
  }

  lemma ViewUntouched(s: State, e: Event, id: Source)
    requires Tokens(s) && !Restarts(e)
    requires e.SearchEverywhere? || e.ShowLibrary? || e.ShowSource? || e.SignOut?
    ensures Untouched(s, Step(s, e), id)
  {
    match e {
      case SignOut(other) => UntouchedAdd(s, id, SignOutCall(other));
      case SearchEverywhere(_) =>
      case ShowLibrary =>
      case ShowSource(_) =>
    }
  }

  lemma ActionUntouched(s: State, e: Event, id: Source)
    requires Inv(s) && !e.Settle? && !Restarts(e) && !Resets(s, e, id) && e != SearchMoreIn(id)
    ensures Untouched(s, Step(s, e), id)
  {
    match e {
      case SearchMoreIn(other) => MoreUntouched(s, other, id);
      case ApplySource(source) => ApplyUntouched(s, source, id);
      case AcceptSignIn(other, session) => AcceptUntouched(s, id, other, session);
      case LoadLiked(_) => ListsUntouched(s, e, id);
      case OpenPlaylist(_, _) => ListsUntouched(s, e, id);
      case ClosePlaylist => ListsUntouched(s, e, id);
      case RunSearch(_, _) => ListsUntouched(s, e, id);
      case ClearSearch => ListsUntouched(s, e, id);
      case LoadSession(other) => UntouchedSession(s, id, other, None);
      case OpenSignIn(other) => UntouchedCancel(s, id, other, true);
      case CancelSignIn(other) => UntouchedCancel(s, id, other, false);
      case SetSignInError(other, challenge, message) => UntouchedSignInError(s, id, other, challenge, message);
      case _ => ViewUntouched(s, e, id);
    }
  }

  lemma AcceptUntouched(s: State, id: Source, other: Source, session: Session)
    requires Tokens(s) && !Resets(s, AcceptSignIn(other, session), id)
    ensures Untouched(s, AcceptSignInStep(s, other, session), id)
  {
    UntouchedAccept(s, id, other, session);
  }

  lemma ListsUntouched(s: State, e: Event, id: Source)
    requires Inv(s) && (e.LoadLiked? || e.OpenPlaylist? || e.ClosePlaylist? || e.RunSearch? || e.ClearSearch?)
    ensures Untouched(s, Step(s, e), id)
  {
    match e {
      case LoadLiked(more) => UntouchedLiked(s, id, more);
      case OpenPlaylist(remote, more) => UntouchedPlaylist(s, id, remote, more);
      case ClosePlaylist =>
        UntouchedPatch(s, id, ActiveId(s),
                       RecordOf(s, ActiveId(s)).(detail := None, selected := None, detailStatus := Idle));
      case RunSearch(query, more) => UntouchedSearch(s, id, query, more);
      case ClearSearch => UntouchedClearSearch(s, id);
    }
  }

  // ---------- settlements that do not touch the section ----------

  lemma UntouchedPageRefused(s: State, id: Source, call: Call, error: Error)
    requires Tokens(s) && call.PageCall?
    requires !(call.request.id == id && call.request.feed == Section(s.global.query))
    requires call.request.id == id && Current(s, KeyOf(call.request), call.token) ==> !error.expired
    ensures Untouched(s, SettlePage(s, call, Rejected(error)), id)
  {
    var other := call.request.id;
    if Current(s, KeyOf(call.request), call.token) {
      if call.request.feed.Section? {
        var query := call.request.feed.query;
        var shown := SetSection(s, other, query, SectionOf(s, other).(status := Errored));
        UntouchedSet(s, id, other, query, SectionOf(s, other).(status := Errored));
        UntouchedFail(shown, id, other, "search", error);
        UntouchedThrough(s, shown, Fail(shown, other, "search", error), id);
      } else {
        var slot := match call.request.feed case Liked => "liked" case Playlist(_) => "playlist" case _ => "search";
        UntouchedFailAfter(s, id, other, Refused(RecordOf(s, other), call.request.feed), slot, error);
        UntouchedFail(s, id, other, slot, error);
      }
    }
  }

  lemma UntouchedPageOk(s: State, id: Source, call: Call, page: Page)
    requires call.PageCall?
    requires !(call.request.id == id && call.request.feed == Section(s.global.query))
    ensures Untouched(s, SettlePage(s, call, PageIs(page)), id)
  {
    var other := call.request.id;
    var listing := Extend(call.before, call.more, Reply(call.request, page));
    if Current(s, KeyOf(call.request), call.token) {
      if call.request.feed.Section? {
        UntouchedSet(s, id, other, call.request.feed.query, SectionState(Ready, listing));
      } else {
        AnsweredShape(s, call, page);
        UntouchedPatch(s, id, other, Answered(RecordOf(s, other), call.request.feed, listing));
      }
    }
  }

  lemma UntouchedSessionSettled(s: State, id: Source, call: Call, outcome: Outcome)
    requires Tokens(s) && call.SessionCall? && Fits(call, outcome) && !IsPart(call, id, s.global.query)
    requires call.id == id && Current(s, Key(id, OnSession), call.token) ==> !Expires(outcome)
    ensures Untouched(s, SettleSession(s, call, outcome), id)
  {
    var was := RecordOf(s, call.id);
    var settled := SettleSession(s, call.(thenSearch := None), outcome);
    match outcome {
      case SessionIs(session) => UntouchedPatch(s, id, call.id, was.(session := Some(session), sessionStatus := Ready));
      case Rejected(error) =>
        if Current(s, Key(call.id, OnSession), call.token) {
          UntouchedFailAfter(s, id, call.id, was.(sessionStatus := Errored), "session", error);
        }
    }
    SessionSettledCalls(s, call.(thenSearch := None), outcome);
    if call.thenSearch.Some? {
      UntouchedLate(settled, id, SectionStart(call.id, call.thenSearch.value));
      UntouchedThrough(s, settled, SettleSession(s, call, outcome), id);
    }
  }

  /** Settling a session sends nothing, so the next call number is still unused. */
  lemma SessionSettledCalls(s: State, call: Call, outcome: Outcome)
    requires Tokens(s) && call.SessionCall? && call.thenSearch.None?
    ensures forall k <- SettleSession(s, call, outcome).calls :: k < SettleSession(s, call, outcome).nextId
  {
  }

  lemma UntouchedLate(s: State, id: Source, call: Call)
    requires (forall k <- s.calls :: k < s.nextId) && !Concerns(call, id, s.global.query)
    ensures Untouched(s, AddCall(s, call), id)
  {
  }

  lemma UntouchedSectionStart(s: State, id: Source, other: Source, query: string)
    requires Tokens(s) && !(other == id && query == s.global.query)
    requires other == id ==>
      RecordOf(s, id).sessionStatus == Idle || !MaySearch(FindSource(s.sources, id), RecordOf(s, id).session)
    ensures Untouched(s, SettleSectionStart(s, other, query), id)
  {
    if RecordOf(s, other).sessionStatus == Idle {
      UntouchedSession(s, id, other, Some(query));
    } else if other != id {
      UntouchedSection(s, id, other, query, None);
    } else {
      UntouchedSet(s, id, other, query, SectionOf(s, other).(status := SignedOut));
    }
  }

  lemma UntouchedCancelled(s: State, id: Source, call: Call, outcome: Outcome)
    requires Tokens(s) && call.CancelCall? && Fits(call, outcome)
    requires Expires(outcome) && call.id == id && Current(s, Key(id, OnAuth), call.token) ==>
               RecordOf(s, id).challenge != Some(call.challenge)
    ensures Untouched(s, SettleCancel(s, call, outcome), id)
  {
    var settled := CancelSettled(s, call, outcome);
    if Current(s, Key(call.id, OnAuth), call.token) && RecordOf(s, call.id).challenge == Some(call.challenge) {
      match outcome {
        case Done => UntouchedPatch(s, id, call.id, RecordOf(s, call.id).(challenge := None, authStatus := Idle));
        case Rejected(error) => UntouchedFail(s, id, call.id, "auth", error);
      }
    }
    if call.thenOpen {
      CancelSettledCalls(s, call, outcome);
      UntouchedLate(settled, id, OpenAfterCancel(call.id));
      UntouchedThrough(s, settled, AddCall(settled, OpenAfterCancel(call.id)), id);
    }
  }

  lemma CancelSettledCalls(s: State, call: Call, outcome: Outcome)
    requires Tokens(s) && call.CancelCall?
    ensures forall k <- CancelSettled(s, call, outcome).calls :: k < CancelSettled(s, call, outcome).nextId
  {
  }

  lemma UntouchedOpenAgain(s: State, id: Source, other: Source)
    requires Tokens(s)
    ensures Untouched(s, SettleOpenAfterCancel(s, other), id)
  {
    var was := RecordOf(s, other);
    var key := Key(other, OnAuth);
    UntouchedSent(s, id, key, was.(authStatus := Loading, signInError := None, errors := was.errors - {"auth"}),
                  OpenCall(other, Generation(Bump(s, key), key)));
  }

  lemma UntouchedArm(s: State, t: State, id: Source, other: Source, challenge: Challenge, token: nat)
    requires Tokens(s) && t.calls == s.calls && t.nextId == s.nextId
    ensures Untouched(t, Arm(t, other, challenge, token), id)
  {
    UntouchedPlain(s, t, id, PollTimer(other, challenge, token));
  }

  lemma UntouchedOpened(s: State, id: Source, call: Call, outcome: Outcome)
    requires Tokens(s) && call.OpenCall? && Fits(call, outcome)
    requires call.id == id && Current(s, Key(id, OnAuth), call.token) ==> !Expires(outcome)
    ensures Untouched(s, SettleOpen(s, call, outcome), id)
  {
    var was := RecordOf(s, call.id);
    match outcome {
      case ChallengeIs(challenge) =>
        UntouchedAdd(s, id, LateCancelCall(call.id, challenge));
        var patched := Patch(s, call.id, was.(challenge := Some(challenge), authStatus := Ready));
        UntouchedPatch(s, id, call.id, was.(challenge := Some(challenge), authStatus := Ready));
        UntouchedArm(s, patched, id, call.id, challenge, call.token);
        UntouchedThrough(s, patched, Arm(patched, call.id, challenge, call.token), id);
      case Rejected(error) =>
        if Current(s, Key(call.id, OnAuth), call.token) {
          UntouchedFailAfter(s, id, call.id, was.(authStatus := Errored), "auth", error);
        }
    }
  }

  lemma UntouchedPolled(s: State, id: Source, call: Call, outcome: Outcome)
    requires Tokens(s) && call.PollCall? && Fits(call, outcome)
    requires call.id == id && Current(s, Key(id, OnAuth), call.token) ==>
      && !Expires(outcome)
      && (outcome.PollIs? && outcome.result.Complete? && outcome.result.session.Some? ==> !Accepts(s, id))
    ensures Untouched(s, SettlePoll(s, call, outcome), id)
  {
    var was := RecordOf(s, call.id);
    if Current(s, Key(call.id, OnAuth), call.token) {
      match outcome {
        case PollIs(Complete(Some(session))) => UntouchedAccept(s, id, call.id, session);
        case PollIs(Complete(None)) =>
          UntouchedPatch(s, id, call.id, was.(challenge := None, errors := was.errors["auth" := "complete"]));
        case PollIs(Pending) => UntouchedArm(s, s, id, call.id, call.challenge, call.token);
        case PollIs(Other(state)) =>
          UntouchedPatch(s, id, call.id, was.(challenge := None, errors := was.errors["auth" := state]));
        case Rejected(error) =>
          UntouchedFailAfter(s, id, call.id, was.(challenge := None, authStatus := Idle), "auth", error);
      }
    }
  }

  lemma UntouchedSignedOut(s: State, id: Source, other: Source, outcome: Outcome)
    requires Tokens(s) && (other == id ==> !Expires(outcome) && !outcome.SessionIs?)
    ensures Untouched(s, SettleSignOut(s, other, outcome), id)
  {
    match outcome {
      case SessionIs(session) =>
        UntouchedReset(s, id, other, EMPTY_BROWSE.(session := Some(session), sessionStatus := Ready));
      case Rejected(error) => UntouchedFail(s, id, other, "auth", error);
      case _ =>
    }
  }

  lemma DropTokens(s: State, k: nat)
    requires Tokens(s)
    ensures Tokens(DropCall(s, k))
  {
  }

  lemma PageUntouched(s: State, k: nat, outcome: Outcome, id: Source)
    requires Tokens(s) && k in s.calls && s.calls[k].PageCall? && Fits(s.calls[k], outcome)
    requires !Concerns(s.calls[k], id, s.global.query) && !Resets(s, Settle(k, outcome), id)
    ensures Untouched(DropCall(s, k), SettlePage(DropCall(s, k), s.calls[k], outcome), id)
  {
    DropTokens(s, k);
    match outcome {
      case PageIs(page) => UntouchedPageOk(DropCall(s, k), id, s.calls[k], page);
      case Rejected(error) => UntouchedPageRefused(DropCall(s, k), id, s.calls[k], error);
    }
  }

  lemma SessionUntouched(s: State, k: nat, outcome: Outcome, id: Source)
    requires Tokens(s) && k in s.calls && s.calls[k].SessionCall? && Fits(s.calls[k], outcome)
    requires !Concerns(s.calls[k], id, s.global.query) && !Resets(s, Settle(k, outcome), id)
    ensures Untouched(DropCall(s, k), SettleSession(DropCall(s, k), s.calls[k], outcome), id)
  {
    DropTokens(s, k);
    UntouchedSessionSettled(DropCall(s, k), id, s.calls[k], outcome);
  }

  lemma CancelUntouched(s: State, k: nat, outcome: Outcome, id: Source)
    requires Tokens(s) && k in s.calls && s.calls[k].CancelCall? && Fits(s.calls[k], outcome)
    requires !Resets(s, Settle(k, outcome), id)
    ensures Untouched(DropCall(s, k), SettleCancel(DropCall(s, k), s.calls[k], outcome), id)
  {
    DropTokens(s, k);
    UntouchedCancelled(DropCall(s, k), id, s.calls[k], outcome);
  }

  lemma OpenUntouched(s: State, k: nat, outcome: Outcome, id: Source)
    requires Tokens(s) && k in s.calls && s.calls[k].OpenCall? && Fits(s.calls[k], outcome)
    requires !Resets(s, Settle(k, outcome), id)
    ensures Untouched(DropCall(s, k), SettleOpen(DropCall(s, k), s.calls[k], outcome), id)
  {
    DropTokens(s, k);
    UntouchedOpened(DropCall(s, k), id, s.calls[k], outcome);
  }

  lemma PollUntouched(s: State, k: nat, outcome: Outcome, id: Source)
    requires Tokens(s) && k in s.calls && s.calls[k].PollCall? && Fits(s.calls[k], outcome)
    requires !Resets(s, Settle(k, outcome), id)
    ensures Untouched(DropCall(s, k), SettlePoll(DropCall(s, k), s.calls[k], outcome), id)
  {
    DropTokens(s, k);
    UntouchedPolled(DropCall(s, k), id, s.calls[k], outcome);
  }

  lemma SettleUntouched(s: State, k: nat, outcome: Outcome, id: Source)
    requires Tokens(s) && k in s.calls && Fits(s.calls[k], outcome) && !Concerns(s.calls[k], id, s.global.query)
    requires !Resets(s, Settle(k, outcome), id) && !Overtakes(s, Settle(k, outcome), id)
    ensures Untouched(s, SettleStep(s, k, outcome), id)
  {
    var rest := DropCall(s, k);
    UntouchedDrop(s, id, k);
    match s.calls[k] {
      case PageCall(_, _, _, _) => PageUntouched(s, k, outcome, id);
      case SessionCall(_, _, _) => SessionUntouched(s, k, outcome, id);
      case CancelCall(_, _, _, _) => CancelUntouched(s, k, outcome, id);
      case OpenCall(_, _) => OpenUntouched(s, k, outcome, id);
      case LateCancelCall(_, _) =>
      case PollCall(_, _, _) => PollUntouched(s, k, outcome, id);
      case _ => PlainUntouched(s, k, outcome, id);
    }
    UntouchedThrough(s, rest, SettleStep(s, k, outcome), id);
  }

  lemma PlainUntouched(s: State, k: nat, outcome: Outcome, id: Source)
    requires Tokens(s) && k in s.calls && Fits(s.calls[k], outcome) && !Concerns(s.calls[k], id, s.global.query)
    requires !Resets(s, Settle(k, outcome), id) && !Overtakes(s, Settle(k, outcome), id)
    requires s.calls[k].SectionStart? || s.calls[k].OpenAfterCancel? || s.calls[k].PollTimer? || s.calls[k].SignOutCall?
    ensures Untouched(DropCall(s, k), SettleStep(s, k, outcome), id)
  {
    var rest := DropCall(s, k);
    DropTokens(s, k);
    match s.calls[k] {
      case SectionStart(_, _) => StartUntouched(s, k, outcome, id);
      case OpenAfterCancel(other) => UntouchedOpenAgain(rest, id, other);
      case PollTimer(other, challenge, token) => UntouchedAdd(rest, id, PollCall(other, challenge, token));
      case SignOutCall(other) => UntouchedSignedOut(rest, id, other, outcome);
    }
  }

  lemma StartUntouched(s: State, k: nat, outcome: Outcome, id: Source)
    requires Tokens(s) && k in s.calls && s.calls[k].SectionStart? && !Concerns(s.calls[k], id, s.global.query)
    requires !Overtakes(s, Settle(k, outcome), id)
    ensures var call := s.calls[k];
            Untouched(DropCall(s, k), SettleSectionStart(DropCall(s, k), call.id, call.query), id)
  {
    DropTokens(s, k);
    UntouchedSectionStart(DropCall(s, k), id, s.calls[k].id, s.calls[k].query);
  }

  // ---------- resets ----------

  /** Nothing the source has out is listened to any more. */
  ghost predicate Silent(t: State, id: Source) {
    forall key: Key, k :: key.id == id ==> !Live(t, key, k)
  }

  /** After a reset nothing of the source is live, and its section still waits as it did. */
  ghost predicate Silenced(s: State, t: State, id: Source) {
    && t.global.query == s.global.query && (Waits(s, id) <==> Waits(t, id))
    && (PartOut(s, id, s.global.query) <==> PartOut(t, id, s.global.query))
    && Epoch(t, id) == Epoch(s, id) + 1 && Silent(t, id)
  }

  /** Calls that go without being parts of the search leave the same parts out. */
  lemma FewerCalls(s: State, t: State, id: Source, query: string)
    requires forall k <- t.calls :: k in s.calls && t.calls[k] == s.calls[k]
    requires forall k <- s.calls :: IsPart(s.calls[k], id, query) ==> k in t.calls
    ensures PartOut(s, id, query) <==> PartOut(t, id, query)
  {
    if PartOut(s, id, query) {
      var k :| k in s.calls && IsPart(s.calls[k], id, query);
      assert k in t.calls && IsPart(t.calls[k], id, query);
    }
    if PartOut(t, id, query) {
      var k :| k in t.calls && IsPart(t.calls[k], id, query);
      assert k in s.calls && IsPart(s.calls[k], id, query);
    }
  }

  lemma ResetParts(s: State, id: Source, b: Browse, query: string)
    requires Tokens(s)
    ensures PartOut(s, id, query) <==> PartOut(Reset(s, id, b), id, query)
  {
    assert Reset(s, id, b).calls == ForgetTimer(s, id).calls;
    FewerCalls(s, Reset(s, id, b), id, query);
  }

  lemma PatchedSilent(s: State, id: Source, b: Browse)
    requires Silent(s, id)
    ensures Silent(Patch(s, id, b), id)
  {
    forall key: Key, k | key.id == id ensures !Live(Patch(s, id, b), key, k) {
      assert !Live(s, key, k);
    }
  }

  lemma ResetSilences(s: State, id: Source, b: Browse)
    requires Tokens(s)
    ensures Silenced(s, Reset(s, id, b), id)
  {
    InvalidateSilences(s, id);
    PatchedSilent(Invalidate(s, id), id, b);
    ResetParts(s, id, b, s.global.query);
  }

  lemma ExpirySilences(s: State, id: Source, slot: string, error: Error)
    requires Tokens(s) && error.expired
    ensures Silenced(s, Fail(s, id, slot, error), id)
  {
    var was := RecordOf(s, id);
    var b := was.(errors := was.errors[slot := error.message]);
    var noted := Patch(s, id, b);
    UntouchedPatch(s, id, id, b);
    KeptOut(s, noted, id, s.global.query);
    ResetSilences(noted, id, EMPTY_BROWSE.(sessionStatus := Ready, session := Some(Session(false, true))));
  }

  lemma ExpiryAfterSilences(s: State, id: Source, b: Browse, slot: string, error: Error)
    requires Tokens(s) && error.expired
    ensures Silenced(s, Fail(Patch(s, id, b), id, slot, error), id)
  {
    UntouchedPatch(s, id, id, b);
    KeptOut(s, Patch(s, id, b), id, s.global.query);
    ExpirySilences(Patch(s, id, b), id, slot, error);
  }

  lemma SilencedThrough(s: State, t: State, u: State, id: Source)
    requires Untouched(s, t, id) && Silenced(t, u, id)
    ensures Silenced(s, u, id)
  {
    KeptOut(s, t, id, s.global.query);
  }

  lemma SilencedSources(s: State, t: State, id: Source, sources: seq<SourceInfo>)
    requires Silenced(s, t, id)
    ensures Silenced(s, t.(sources := sources), id)
  {
    var u := t.(sources := sources);
    forall key: Key, k | key.id == id ensures !Live(u, key, k) {
      assert !Live(t, key, k);
    }
    UntouchedSources(t, id, sources);
    KeptOut(t, u, id, t.global.query);
  }

  lemma ApplySilences(s: State, source: SourceInfo)
    requires Tokens(s) && Goes(s, source)
    ensures Silenced(s, ApplySourceStep(s, source), source.id)
  {
    ResetSilences(s, source.id, EMPTY_BROWSE);
    SilencedSources(s, Reset(s, source.id, EMPTY_BROWSE), source.id, ApplySourceStep(s, source).sources);
  }

  lemma AcceptSilences(s: State, id: Source, session: Session)
    requires Tokens(s) && Accepts(s, id)
    ensures Silenced(s, AcceptSignInStep(s, id, session), id)
  {
    ResetSilences(s, id, EMPTY_BROWSE.(session := Some(session), sessionStatus := Ready));
  }

  lemma PageSilences(s: State, call: Call, error: Error)
    requires Tokens(s) && call.PageCall? && Current(s, KeyOf(call.request), call.token) && error.expired
    requires call.request.feed != Section(s.global.query)
    ensures Silenced(s, SettlePage(s, call, Rejected(error)), call.request.id)
  {
    var id := call.request.id;
    if call.request.feed.Section? {
      var query := call.request.feed.query;
      var shown := SetSection(s, id, query, SectionOf(s, id).(status := Errored));
      UntouchedSet(s, id, id, query, SectionOf(s, id).(status := Errored));
      ExpirySilences(shown, id, "search", error);
      SilencedThrough(s, shown, Fail(shown, id, "search", error), id);
    } else {
      var slot := match call.request.feed case Liked => "liked" case Playlist(_) => "playlist" case _ => "search";
      ExpiryAfterSilences(s, id, Refused(RecordOf(s, id), call.request.feed), slot, error);
      ExpirySilences(s, id, slot, error);
    }
  }

  lemma SessionSilences(s: State, call: Call, error: Error)
    requires Tokens(s) && call.SessionCall? && Current(s, Key(call.id, OnSession), call.token) && error.expired
    ensures Silenced(s, SettleSession(s, call.(thenSearch := None), Rejected(error)), call.id)
  {
    ExpiryAfterSilences(s, call.id, RecordOf(s, call.id).(sessionStatus := Errored), "session", error);
  }

  lemma LateSilent(t: State, id: Source, call: Call)
    requires Silent(t, id) && Held(call) == None
    ensures Silent(AddCall(t, call), id)
  {
    forall key: Key, k | key.id == id ensures !Live(AddCall(t, call), key, k) {
      assert !Live(t, key, k);
    }
  }

  lemma LateSilenced(s: State, t: State, id: Source, call: Call)
    requires Silenced(s, t, id) && (forall k <- t.calls :: k < t.nextId)
    requires Held(call) == None && !Concerns(call, id, s.global.query)
    ensures Silenced(s, AddCall(t, call), id)
  {
    UntouchedLate(t, id, call);
    KeptOut(t, AddCall(t, call), id, t.global.query);
    LateSilent(t, id, call);
  }

  lemma CancelSilences(s: State, call: Call, error: Error)
    requires Tokens(s) && call.CancelCall? && Current(s, Key(call.id, OnAuth), call.token) && error.expired
    requires RecordOf(s, call.id).challenge == Some(call.challenge)
    ensures Silenced(s, SettleCancel(s, call, Rejected(error)), call.id)
  {
    ExpirySilences(s, call.id, "auth", error);
    if call.thenOpen {
      CancelSettledCalls(s, call, Rejected(error));
      LateSilenced(s, CancelSettled(s, call, Rejected(error)), call.id, OpenAfterCancel(call.id));
    }
  }

  lemma PollSilences(s: State, call: Call, outcome: Outcome)
    requires Tokens(s) && call.PollCall? && Current(s, Key(call.id, OnAuth), call.token)
    requires || Expires(outcome)
             || (outcome.PollIs? && outcome.result.Complete? && outcome.result.session.Some? && Accepts(s, call.id))
    ensures Silenced(s, SettlePoll(s, call, outcome), call.id)
  {
    match outcome {
      case PollIs(Complete(Some(session))) => AcceptSilences(s, call.id, session);
      case Rejected(error) =>
        ExpiryAfterSilences(s, call.id, RecordOf(s, call.id).(challenge := None, authStatus := Idle), "auth", error);
    }
  }

  lemma OpenSilences(s: State, call: Call, error: Error)
    requires Tokens(s) && call.OpenCall? && Current(s, Key(call.id, OnAuth), call.token) && error.expired
    ensures Silenced(s, SettleOpen(s, call, Rejected(error)), call.id)
  {
    ExpiryAfterSilences(s, call.id, RecordOf(s, call.id).(authStatus := Errored), "auth", error);
  }

  lemma SignOutSilences(s: State, id: Source, outcome: Outcome)
    requires Tokens(s) && (Expires(outcome) || outcome.SessionIs?)
    ensures Silenced(s, SettleSignOut(s, id, outcome), id)
  {
    match outcome {
      case SessionIs(session) => ResetSilences(s, id, EMPTY_BROWSE.(session := Some(session), sessionStatus := Ready));
      case Rejected(error) => ExpirySilences(s, id, "auth", error);
    }
  }

  /** A session that turns out expired may have been loaded for a part of a search, which still starts. */
  lemma SessionResets(s: State, call: Call, error: Error)
    requires Tokens(s) && call.SessionCall? && Current(s, Key(call.id, OnSession), call.token) && error.expired
    ensures var t := SettleSession(s, call, Rejected(error));
            Epoch(t, call.id) == Epoch(s, call.id) + 1 && Silent(t, call.id)
    ensures !IsPart(call, call.id, s.global.query) ==> Silenced(s, SettleSession(s, call, Rejected(error)), call.id)
  {
    var settled := SettleSession(s, call.(thenSearch := None), Rejected(error));
    SessionSilences(s, call, error);
    if call.thenSearch.Some? {
      var start := SectionStart(call.id, call.thenSearch.value);
      LateSilent(settled, call.id, start);
      if call.thenSearch != Some(s.global.query) {
        SessionSettledCalls(s, call.(thenSearch := None), Rejected(error));
        LateSilenced(s, settled, call.id, start);
      }
    }
  }

  /** Settlements that reset a source without being its section's page or part. */
  lemma SettlementSilences(s: State, k: nat, outcome: Outcome, id: Source)
    requires Tokens(s) && Possible(s, Settle(k, outcome)) && Resets(s, Settle(k, outcome), id)
    requires !Concerns(s.calls[k], id, s.global.query)
    ensures Silenced(DropCall(s, k), SettleStep(s, k, outcome), id)
  {
    var rest := DropCall(s, k);
    DropTokens(s, k);
    match s.calls[k] {
      case PageCall(_, _, _, _) => PageSilences(rest, s.calls[k], outcome.error);
      case SessionCall(_, _, _) => SessionResets(rest, s.calls[k], outcome.error);
      case CancelCall(_, _, _, _) => CancelSilences(rest, s.calls[k], outcome.error);
      case OpenCall(_, _) => OpenSilences(rest, s.calls[k], outcome.error);
      case PollCall(_, _, _) => PollSilences(rest, s.calls[k], outcome);
      case SignOutCall(_) => SignOutSilences(rest, id, outcome);
    }
  }

  lemma ResetStep(s: State, e: Event, id: Source)
    requires Tokens(s) && Possible(s, e) && Resets(s, e, id)
    requires e.Settle? ==> !Concerns(s.calls[e.call], id, s.global.query)
    ensures Silenced(s, Step(s, e), id)
  {
    match e {
      case ApplySource(source) => ApplySilences(s, source);
      case AcceptSignIn(_, session) => AcceptSilences(s, id, session);
      case Settle(k, outcome) =>
        UntouchedDrop(s, id, k);
        SettlementSilences(s, k, outcome, id);
        SilencedThrough(s, DropCall(s, k), SettleStep(s, k, outcome), id);
    }
  }

  lemma RefusedSectionShape(s: State, call: Call, error: Error)
    requires call.PageCall? && call.request.feed == Section(s.global.query)
    requires Current(s, Key(call.request.id, OnSection), call.token)
    ensures var id := call.request.id;
            SettlePage(s, call, Rejected(error))
              == Fail(SetSection(s, id, s.global.query, SectionOf(s, id).(status := Errored)), id, "search", error)
  {
  }

  lemma RefusedShown(s: State, id: Source)
    requires Tokens(s)
    ensures var shown := SetSection(s, id, s.global.query, SectionOf(s, id).(status := Errored));
            Tokens(shown) && !Waits(shown, id) && Epoch(shown, id) == Epoch(s, id)
  {
  }

  /** The section's own page fails: the section shows it, and an expired session resets the source. */
  lemma SectionRefused(s: State, call: Call, error: Error)
    requires Tokens(s) && call.PageCall? && call.request.feed == Section(s.global.query)
    requires Current(s, Key(call.request.id, OnSection), call.token)
    ensures var t := SettlePage(s, call, Rejected(error)); var id := call.request.id;
            && !Waits(t, id)
            && Epoch(t, id) == Epoch(s, id) + (if error.expired then 1 else 0)
            && (error.expired ==> Silent(t, id))
  {
    var id := call.request.id;
    var shown := SetSection(s, id, s.global.query, SectionOf(s, id).(status := Errored));
    RefusedSectionShape(s, call, error);
    RefusedShown(s, id);
    if error.expired {
      ExpirySilences(shown, id, "search", error);
    } else {
      UntouchedFail(shown, id, id, "search", error);
    }
  }

  // ---------- the section's own part and page ----------

  /** A page call beside the parts is none of them. */
  lemma PartsBeside(s: State, t: State, n: nat, id: Source, query: string)
    requires n !in s.calls && n in t.calls && t.calls[n].PageCall? && t.calls == s.calls[n := t.calls[n]]
    ensures PartOut(t, id, query) <==> PartOut(s, id, query)
  {
    if PartOut(s, id, query) {
      var k :| k in s.calls && IsPart(s.calls[k], id, query);
      assert k in t.calls && IsPart(t.calls[k], id, query);
    }
    if PartOut(t, id, query) {
      var k :| k in t.calls && IsPart(t.calls[k], id, query);
      assert k in s.calls && IsPart(s.calls[k], id, query);
    }
  }

  /**
  What a section request leaves: for the search shown its page is live, for another nothing
  of the search shown is.
  */
  lemma SectionRequested(s: State, id: Source, query: string, cursor: Option<string>)
    requires Tokens(s) && MaySearch(FindSource(s.sources, id), RecordOf(s, id).session)
    ensures var t := SearchSectionStep(s, id, query, cursor);
            && t.global.query == s.global.query && Epoch(t, id) == Epoch(s, id)
            && (query == s.global.query ==> PageOut(t, id, query))
            && (query != s.global.query ==> (Waits(t, id) <==> Waits(s, id)) && !PageOut(t, id, s.global.query))
            && (PartOut(t, id, s.global.query) <==> PartOut(s, id, s.global.query))
  {
    SearchSectionShape(s, id, query, cursor);
    var key := Key(id, OnSection);
    var call := PageCall(Request(id, Section(query), cursor, Epoch(s, id)), Truthy(cursor), SectionOf(s, id).listing,
                         Generation(s, key) + 1);
    var sent := AddCall(Bump(s, key), call);
    var t := SearchSectionStep(s, id, query, cursor);
    assert t.calls == sent.calls && t.generations == sent.generations;
    assert Live(t, key, s.nextId) && IsSectionPage(t.calls[s.nextId], id, query);
    forall k | Live(t, key, k) ensures k == s.nextId {
    }
    PartsBeside(s, t, s.nextId, id, s.global.query);
  }

  lemma SectionSignedOut(s: State, id: Source, cursor: Option<string>)
    requires !MaySearch(FindSource(s.sources, id), RecordOf(s, id).session)
    ensures var t := SearchSectionStep(s, id, s.global.query, cursor);
            !Waits(t, id) && Epoch(t, id) == Epoch(s, id)
  {
  }

  /** The section's own part: it goes on waiting for its session, or asks for its page, or shows that it may not. */
  lemma OwnPart(s: State, k: nat, id: Source)
    requires Tokens(s) && k in s.calls && s.calls[k] == SectionStart(id, s.global.query)
    ensures OwedOk(SettleStep(s, k, Done), id) && Epoch(SettleStep(s, k, Done), id) == Epoch(s, id)
  {
    var rest := DropCall(s, k);
    var query := s.global.query;
    DropTokens(s, k);
    if RecordOf(s, id).sessionStatus == Idle {
      var t := LoadSessionStep(rest, id, Some(query));
      assert s.nextId in t.calls && IsPart(t.calls[s.nextId], id, query);
    } else if MaySearch(FindSource(s.sources, id), RecordOf(s, id).session) {
      SectionRequested(rest, id, query, None);
    } else {
      SectionSignedOut(rest, id, None);
    }
  }

  /** The part is out again once its session call has settled. */
  lemma OwnPartFollows(s: State, k: nat, outcome: Outcome, id: Source)
    requires k in s.calls && s.calls[k].SessionCall? && IsPart(s.calls[k], id, s.global.query)
    ensures OwedOk(SettleStep(s, k, outcome), id)
  {
    var call := s.calls[k];
    var rest := DropCall(s, k);
    var t := SettleStep(s, k, outcome);
    var settled := SettleSession(rest, call.(thenSearch := None), outcome);
    assert t == AddCall(settled, SectionStart(id, s.global.query));
    SettledQuery(rest, call.(thenSearch := None), outcome);
    assert settled.nextId in t.calls && IsPart(t.calls[settled.nextId], id, t.global.query);
  }

  /** The session its part waited for settles: the part starts again. */
  lemma OwnSession(s: State, k: nat, outcome: Outcome, id: Source)
    requires Tokens(s) && k in s.calls && s.calls[k].SessionCall? && IsPart(s.calls[k], id, s.global.query)
    requires Fits(s.calls[k], outcome)
    ensures OwedOk(SettleStep(s, k, outcome), id)
    ensures Resets(s, Settle(k, outcome), id) ==>
              var t := SettleStep(s, k, outcome); Epoch(t, id) == Epoch(s, id) + 1 && Silent(t, id)
    ensures !Resets(s, Settle(k, outcome), id) ==> Epoch(SettleStep(s, k, outcome), id) == Epoch(s, id)
  {
    var rest := DropCall(s, k);
    var call := s.calls[k];
    DropTokens(s, k);
    OwnPartFollows(s, k, outcome, id);
    if Resets(s, Settle(k, outcome), id) {
      SessionResets(rest, call, outcome.error);
    } else {
      SessionKeepsEpoch(rest, call, outcome);
    }
  }

  lemma SessionKeepsEpoch(s: State, call: Call, outcome: Outcome)
    requires Tokens(s) && call.SessionCall? && Fits(call, outcome)
    requires Current(s, Key(call.id, OnSession), call.token) ==> !Expires(outcome)
    ensures Epoch(SettleSession(s, call, outcome), call.id) == Epoch(s, call.id)
  {
    UntouchedSessionSettled(s, call.id, call.(thenSearch := None), outcome);
  }

  lemma SettledQuery(s: State, call: Call, outcome: Outcome)
    requires call.SessionCall? && call.thenSearch.None?
    ensures SettleSession(s, call, outcome).global == s.global
  {
  }

  /** A reset is the next epoch and takes the token from every call the source has out; nothing else begins an epoch. */
  ghost predicate ResetOrNot(s: State, e: Event, id: Source)
    requires Possible(s, e)
  {
    var t := Step(s, e);
    if Resets(s, e, id) then Epoch(t, id) == Epoch(s, id) + 1 && Silent(t, id)
    else Epoch(t, id) == Epoch(s, id)
  }

  lemma LivePage(s: State, k: nat, outcome: Outcome, id: Source)
    requires Tokens(s) && k in s.calls && IsSectionPage(s.calls[k], id, s.global.query) && Fits(s.calls[k], outcome)
    requires Live(s, Key(id, OnSection), k)
    ensures var t := SettlePage(DropCall(s, k), s.calls[k], outcome);
            && !Waits(t, id)
            && Epoch(t, id) == Epoch(s, id) + (if Expires(outcome) then 1 else 0)
            && (Expires(outcome) ==> Silent(t, id))
  {
    if outcome.Rejected? {
      DropTokens(s, k);
      SectionRefused(DropCall(s, k), s.calls[k], outcome.error);
    }
  }

  /** The section's own page: if it is live the section has its answer, if not nothing happens to the section. */
  lemma OwnPage(s: State, k: nat, outcome: Outcome, id: Source)
    requires Tokens(s) && k in s.calls && IsSectionPage(s.calls[k], id, s.global.query) && Fits(s.calls[k], outcome)
    ensures Live(s, Key(id, OnSection), k) ==> OwedOk(SettleStep(s, k, outcome), id)
    ensures !Live(s, Key(id, OnSection), k) ==> (OwedOk(SettleStep(s, k, outcome), id) <==> OwedOk(s, id))
    ensures ResetOrNot(s, Settle(k, outcome), id)
  {
    PageStep(s, k, outcome);
    if Live(s, Key(id, OnSection), k) {
      LivePage(s, k, outcome, id);
    } else {
      DeadStep(s, k, outcome, id);
      DeadPage(s, k, id);
    }
  }

  lemma PageStep(s: State, k: nat, outcome: Outcome)
    requires k in s.calls && s.calls[k].PageCall?
    ensures SettleStep(s, k, outcome) == SettlePage(DropCall(s, k), s.calls[k], outcome)
  {
  }

  lemma DeadStep(s: State, k: nat, outcome: Outcome, id: Source)
    requires k in s.calls && IsSectionPage(s.calls[k], id, s.global.query) && !Live(s, Key(id, OnSection), k)
    ensures SettlePage(DropCall(s, k), s.calls[k], outcome) == DropCall(s, k)
    ensures !Resets(s, Settle(k, outcome), id)
  {
  }

  lemma DeadPage(s: State, k: nat, id: Source)
    requires k in s.calls && IsSectionPage(s.calls[k], id, s.global.query) && !Live(s, Key(id, OnSection), k)
    ensures OwedOk(DropCall(s, k), id) <==> OwedOk(s, id)
  {
    var t := DropCall(s, k);
    var query := s.global.query;
    if PageOut(s, id, query) {
      var j :| Live(s, Key(id, OnSection), j) && IsSectionPage(s.calls[j], id, query);
      assert Live(t, Key(id, OnSection), j) && IsSectionPage(t.calls[j], id, query);
    }
    if PartOut(s, id, query) {
      var j :| j in s.calls && IsPart(s.calls[j], id, query);
      assert j in t.calls && IsPart(t.calls[j], id, query);
    }
    if PageOut(t, id, query) {
      var j :| Live(t, Key(id, OnSection), j) && IsSectionPage(t.calls[j], id, query);
      assert Live(s, Key(id, OnSection), j) && IsSectionPage(s.calls[j], id, query);
    }
  }

  /** A part of another search that may search: the page of the search shown is out of date. */
  lemma OtherPart(s: State, e: Event, id: Source)
    requires Tokens(s) && Possible(s, e) && Overtakes(s, e, id)
    ensures OwedOk(Step(s, e), id) <==> !(Waits(s, id) && !PartOut(s, id, s.global.query))
  {
    var k := e.call;
    var rest := DropCall(s, k);
    DropTokens(s, k);
    UntouchedDrop(s, id, k);
    KeptOut(s, rest, id, s.global.query);
    SectionRequested(rest, id, s.calls[k].query, None);
  }

  lemma {:induction false} StartsOut(s: State, ids: seq<Source>, query: string, id: Source)
    requires id in ids
    ensures PartOut(AddStarts(s, ids, query), id, query)
    decreases |ids|
  {
    var t := AddCall(s, SectionStart(ids[0], query));
    if ids[0] == id {
      StartsKeep(t, ids[1..], query, s.nextId);
      var u := AddStarts(s, ids, query);
      assert s.nextId in u.calls && IsPart(u.calls[s.nextId], id, query);
    } else {
      StartsOut(t, ids[1..], query, id);
    }
  }

  lemma {:induction false} StartsKeep(s: State, ids: seq<Source>, query: string, k: nat)
    requires k in s.calls && k < s.nextId
    ensures var t := AddStarts(s, ids, query); k in t.calls && t.calls[k] == s.calls[k] && t.global == s.global
    decreases |ids|
  {
    if ids != [] {
      StartsKeep(AddCall(s, SectionStart(ids[0], query)), ids[1..], query, k);
    }
  }

  lemma {:induction false} StartsGlobal(s: State, ids: seq<Source>, query: string)
    ensures AddStarts(s, ids, query).global == s.global && AddStarts(s, ids, query).epochs == s.epochs
    decreases |ids|
  {
    if ids != [] {
      StartsGlobal(AddCall(s, SectionStart(ids[0], query)), ids[1..], query);
    }
  }

  /** A new search everywhere gives each of its sections a part of its own. */
  lemma RestartOwes(s: State, query: string, id: Source)
    requires Trim(query) != ""
    ensures OwedOk(SearchEverywhereStep(s, query), id) && Epoch(SearchEverywhereStep(s, query), id) == Epoch(s, id)
  {
    var trimmed := Trim(query);
    var ids := Candidates(s.sources);
    var shown := s.(view := SearchView, active := None, top := EMPTY_BROWSE,
                    global := GlobalSearch(trimmed, map id | id in ids :: SectionState(Loading, NO_LISTING)));
    StartsGlobal(shown, ids, trimmed);
    if id in ids {
      StartsOut(shown, ids, trimmed, id);
    }
  }

  lemma MoreOwes(s: State, id: Source)
    requires Tokens(s)
    ensures OwedOk(SearchMoreInStep(s, id), id) <==> OwedOk(s, id)
    ensures Epoch(SearchMoreInStep(s, id), id) == Epoch(s, id)
  {
    if id in s.global.sections && SearchMoreInStep(s, id) != s {
      var cursor := s.global.sections[id].listing.cursor;
      if MaySearch(FindSource(s.sources, id), RecordOf(s, id).session) {
        SectionRequested(s, id, s.global.query, cursor);
      } else {
        SectionSignedOut(s, id, cursor);
      }
    }
  }

  // ---------- the step theorem ----------

  lemma PartIsOwed(s: State, k: nat, outcome: Outcome, id: Source)
    requires k in s.calls && IsPart(s.calls[k], id, s.global.query)
    ensures OwedAfter(s, Settle(k, outcome), id)
  {
    assert PartOut(s, id, s.global.query);
  }

  lemma PageIsOwed(s: State, k: nat, outcome: Outcome, id: Source)
    requires k in s.calls && IsSectionPage(s.calls[k], id, s.global.query)
    ensures OwedAfter(s, Settle(k, outcome), id) <==> Live(s, Key(id, OnSection), k) || OwedOk(s, id)
  {
    if Live(s, Key(id, OnSection), k) {
      assert PageOut(s, id, s.global.query);
    }
  }

  /** Steps of calls that concern the section. */
  lemma ConcernedStep(s: State, k: nat, outcome: Outcome, id: Source)
    requires Inv(s) && k in s.calls && Fits(s.calls[k], outcome) && Concerns(s.calls[k], id, s.global.query)
    ensures OwedOk(SettleStep(s, k, outcome), id) <==> OwedAfter(s, Settle(k, outcome), id)
  {
    match s.calls[k] {
      case SectionStart(_, _) =>
        OwnPart(s, k, id);
        PartIsOwed(s, k, outcome, id);
      case SessionCall(_, _, _) =>
        OwnSession(s, k, outcome, id);
        PartIsOwed(s, k, outcome, id);
      case PageCall(_, _, _, _) =>
        OwnPage(s, k, outcome, id);
        PageIsOwed(s, k, outcome, id);
    }
  }

  lemma ResetOwes(s: State, e: Event, id: Source)
    requires Tokens(s) && Possible(s, e) && Resets(s, e, id)
    requires e.Settle? ==> !Concerns(s.calls[e.call], id, s.global.query)
    ensures OwedOk(Step(s, e), id) <==> OwedAfter(s, e, id)
  {
    ResetStep(s, e, id);
  }

  /**
  An event leaves a section without the answer it waits for exactly when it resets the source, other than by
  answering the section, or starts a part of another search, while the section waits and no part of its own
  search is still to start. Once left, the section waits until the next search everywhere.
  */
  lemma OwedExactlyWhen(s: State, e: Event, id: Source)
    requires Inv(s) && Possible(s, e)
    ensures OwedOk(Step(s, e), id) <==> OwedAfter(s, e, id)
  {
    if Restarts(e) {
      RestartOwes(s, e.query, id);
    } else if e.Settle? && Concerns(s.calls[e.call], id, s.global.query) {
      ConcernedStep(s, e.call, e.outcome, id);
    } else if Resets(s, e, id) {
      ResetOwes(s, e, id);
    } else if Overtakes(s, e, id) {
      OtherPart(s, e, id);
    } else if e == SearchMoreIn(id) {
      MoreOwes(s, id);
    } else if e.Settle? {
      SettleUntouched(s, e.call, e.outcome, id);
      UntouchedOwed(s, Step(s, e), id);
    } else {
      ActionUntouched(s, e, id);
      UntouchedOwed(s, Step(s, e), id);
    }
  }

  lemma StartNoReset(s: State, k: nat, outcome: Outcome, id: Source)
    requires Tokens(s) && k in s.calls && s.calls[k] == SectionStart(id, s.global.query) && outcome == Done
    ensures ResetOrNot(s, Settle(k, outcome), id)
  {
    OwnPart(s, k, id);
  }

  lemma ConcernedReset(s: State, k: nat, outcome: Outcome, id: Source)
    requires Tokens(s) && k in s.calls && Fits(s.calls[k], outcome) && Concerns(s.calls[k], id, s.global.query)
    ensures ResetOrNot(s, Settle(k, outcome), id)
  {
    match s.calls[k] {
      case SectionStart(_, _) => StartNoReset(s, k, outcome, id);
      case SessionCall(_, _, _) => OwnSession(s, k, outcome, id);
      case PageCall(_, _, _, _) => OwnPage(s, k, outcome, id);
    }
  }

  lemma OvertakingKeepsEpoch(s: State, e: Event, id: Source)
    requires Tokens(s) && Possible(s, e) && Overtakes(s, e, id)
    ensures Epoch(Step(s, e), id) == Epoch(s, id)
  {
    DropTokens(s, e.call);
    SectionRequested(DropCall(s, e.call), id, s.calls[e.call].query, None);
  }

  lemma UnconcernedKeepsEpoch(s: State, e: Event, id: Source)
    requires Inv(s) && Possible(s, e) && !Resets(s, e, id)
    requires e.Settle? ==> !Concerns(s.calls[e.call], id, s.global.query)
    ensures Epoch(Step(s, e), id) == Epoch(s, id)
  {
    if Restarts(e) {
      RestartOwes(s, e.query, id);
    } else if Overtakes(s, e, id) {
      OvertakingKeepsEpoch(s, e, id);
    } else if e == SearchMoreIn(id) {
      MoreOwes(s, id);
    } else if e.Settle? {
      SettleUntouched(s, e.call, e.outcome, id);
    } else {
      ActionUntouched(s, e, id);
    }
  }

  /**
  An event supersedes all that a source has out exactly when it is a reset of it: its source is taken away, a
  sign-in is accepted, a sign-out succeeds, or a heeded failure finds its session expired.
  */
  lemma ResetExactlyWhen(s: State, e: Event, id: Source)
    requires Inv(s) && Possible(s, e)
    ensures ResetOrNot(s, e, id)
  {
    if e.Settle? && Concerns(s.calls[e.call], id, s.global.query) {
      ConcernedReset(s, e.call, e.outcome, id);
    } else if Resets(s, e, id) {
      ResetStep(s, e, id);
    } else {
      UnconcernedKeepsEpoch(s, e, id);
    }
  }
}
