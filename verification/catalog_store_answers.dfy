/**
What the caller of the browsing store is shown: the record of the source after each action and each settlement,
field by field, with everything else as it was.
*/
module CatalogStoreAnswers {
  import opened Basics
  import opened CatalogBrowse
  import opened CatalogBrowseProofs
  import opened CatalogBrowseRuns
  import opened CatalogBrowseSections
  import opened CatalogStoreFacts

  /** Everything that is shown, apart from the sections: one source has a new record. */
  ghost predicate Shows(s: State, t: State, id: Source, b: Browse) {
    && RecordOf(t, id) == b && (forall other :: other != id ==> RecordOf(t, other) == RecordOf(s, other))
    && t.view == s.view && t.active == s.active && t.sources == s.sources && t.global.query == s.global.query
  }

  ghost predicate SameSections(s: State, t: State) {
    t.global.sections == s.global.sections
  }

  /** Of the sections only that of the source may have changed, and only if the search for `query` is shown. */
  ghost predicate OtherSections(s: State, t: State, id: Source, query: string) {
    && t.global.sections.Keys == s.global.sections.Keys
    && (forall other <- s.global.sections ::
          other != id || query != s.global.query ==> t.global.sections[other] == s.global.sections[other])
  }

  predicate IsShown(s: State, id: Source, query: string) {
    query == s.global.query && id in s.global.sections
  }

  /** The session is over: nothing of the source is left, and it is shown signed out and expired. */
  ghost predicate ShownExpired(s: State, t: State, id: Source) {
    && Shows(s, t, id, EMPTY_BROWSE.(sessionStatus := Ready, session := Some(Session(false, true))))
    && Silent(t, id) && Epoch(t, id) == Epoch(s, id) + 1
  }

  /** No list, no message, nothing loading and nobody signed in. */
  lemma EmptyRecord()
    ensures EMPTY_BROWSE.session.None? && EMPTY_BROWSE.challenge.None? && EMPTY_BROWSE.signInError.None?
    ensures EMPTY_BROWSE.liked.tracks == EMPTY_BROWSE.search.tracks == [] && EMPTY_BROWSE.details == map[]
    ensures EMPTY_BROWSE.liked.cursor == EMPTY_BROWSE.search.cursor == None && !EMPTY_BROWSE.likedLoadingMore
    ensures EMPTY_BROWSE.selected.None? && EMPTY_BROWSE.detail.None? && EMPTY_BROWSE.searchQuery == ""
    ensures EMPTY_BROWSE.sessionStatus == EMPTY_BROWSE.authStatus == EMPTY_BROWSE.likedStatus == Idle
    ensures EMPTY_BROWSE.detailStatus == EMPTY_BROWSE.searchStatus == Idle && EMPTY_BROWSE.errors == map[]
  {
  }

  // ---------- failures ----------

  /** What a failure that does not end the session leaves: its message, under its own slot. */
  lemma FailureNoted(s: State, id: Source, b: Browse, slot: string, error: Error)
    requires !error.expired
    ensures Shows(s, Fail(Patch(s, id, b), id, slot, error), id, b.(errors := b.errors[slot := error.message]))
    ensures Fail(Patch(s, id, b), id, slot, error).global == s.global
    ensures Fail(Patch(s, id, b), id, slot, error).calls == s.calls
  {
  }

  lemma ExpiryNoted(s: State, id: Source, b: Browse, slot: string, error: Error)
    requires Tokens(s) && error.expired
    ensures ShownExpired(s, Fail(Patch(s, id, b), id, slot, error), id)
    ensures Fail(Patch(s, id, b), id, slot, error).global == s.global
  {
    ExpiryAfterSilences(s, id, b, slot, error);
    ResetShows(Patch(Patch(s, id, b), id, b.(errors := b.errors[slot := error.message])), id,
               EMPTY_BROWSE.(sessionStatus := Ready, session := Some(Session(false, true))));
  }

  lemma ResetShows(s: State, id: Source, b: Browse)
    ensures Shows(s, Reset(s, id, b), id, b) && Reset(s, id, b).global == s.global
  {
  }

  // ---------- pages ----------

  /** The feed's list has come, whatever it is: it is ready, and shown if it is the playlist that is open. */
  predicate IsReady(was: Browse, b: Browse, feed: Feed) {
    match feed
    case Liked => b == was.(liked := b.liked, likedStatus := Ready, likedLoadingMore := false)
    case Playlist(remote) =>
      && remote in b.details && b.details == was.details[remote := b.details[remote]]
      && (if was.selected == Some(remote)
          then b == was.(details := b.details, detail := Some(b.details[remote]), detailStatus := Ready)
          else b == was.(details := b.details))
    case Search(_) => b == was.(search := b.search, searchStatus := Ready)
    case Section(_) => b == was
  }

  /** The feed's request has failed: every list stays, its status shows it, and the message is under its slot. */
  predicate IsErrored(was: Browse, b: Browse, feed: Feed, message: string) {
    match feed
    case Liked =>
      b == was.(likedStatus := Errored, likedLoadingMore := false, errors := was.errors["liked" := message])
    case Playlist(remote) =>
      if was.selected == Some(remote)
      then b == was.(detailStatus := Errored, errors := was.errors["playlist" := message])
      else b == was.(errors := was.errors["playlist" := message])
    case Search(_) => b == was.(searchStatus := Errored, errors := was.errors["search" := message])
    case Section(_) => b == was.(errors := was.errors["search" := message])
  }

  /** What a section shows once its page has come, or has failed. */
  ghost predicate SectionAnswered(s: State, t: State, call: Call, outcome: Outcome)
    requires call.PageCall? && call.request.feed.Section? && (outcome.PageIs? || outcome.Rejected?)
  {
    var id := call.request.id; var query := call.request.feed.query;
    && OtherSections(s, t, id, query)
    && (IsShown(s, id, query) && outcome.PageIs? ==>
          && t.global.sections[id].status == Ready && t.global.sections[id].listing.cursor == outcome.page.next
          && t.global.sections[id].listing.tracks
             == (if call.more then call.before.tracks else []) + outcome.page.tracks)
    && (IsShown(s, id, query) && outcome.Rejected? ==>
          t.global.sections[id] == s.global.sections[id].(status := Errored))
  }

  /** What a live page call answers in the record of its source; the lists themselves are in `PageNoted`. */
  ghost predicate PageAnswered(s: State, t: State, k: nat, outcome: Outcome)
    requires k in s.calls && s.calls[k].PageCall? && Fits(s.calls[k], outcome)
  {
    var r := s.calls[k].request; var was := RecordOf(s, r.id); var b := RecordOf(t, r.id);
    && (if outcome.Rejected? && outcome.error.expired then ShownExpired(s, t, r.id)
        else && Shows(s, t, r.id, b) && t.calls == s.calls - {k}
             && (outcome.PageIs? ==> IsReady(was, b, r.feed))
             && (outcome.Rejected? ==> IsErrored(was, b, r.feed, outcome.error.message)))
    && (if r.feed.Section? then SectionAnswered(s, t, s.calls[k], outcome) else SameSections(s, t))
  }

  lemma PatchShows(s: State, id: Source, b: Browse)
    ensures Shows(s, Patch(s, id, b), id, b) && SameSections(s, Patch(s, id, b)) && Patch(s, id, b).calls == s.calls
  {
  }

  lemma SetShows(s: State, id: Source, query: string, section: SectionState)
    ensures var t := SetSection(s, id, query, section); Shows(s, t, id, RecordOf(s, id)) && t.calls == s.calls
  {
    var t := SetSection(s, id, query, section);
    assert t.records == s.records && t.global.query == s.global.query;
    SameRecordsShow(s, t, id);
  }

  lemma SameRecordsShow(s: State, t: State, id: Source)
    requires t.records == s.records && t.view == s.view && t.active == s.active && t.sources == s.sources
    requires t.global.query == s.global.query
    ensures Shows(s, t, id, RecordOf(s, id))
  {
  }

  lemma SetSections(s: State, id: Source, query: string, section: SectionState)
    ensures OtherSections(s, SetSection(s, id, query, section), id, query)
    ensures IsShown(s, id, query) ==> SetSection(s, id, query, section).global.sections[id] == section
  {
  }

  lemma ListComes(s: State, k: nat, page: Page)
    requires k in s.calls && s.calls[k].PageCall? && Live(s, KeyOf(s.calls[k].request), k)
    requires !s.calls[k].request.feed.Section?
    ensures PageAnswered(s, SettleStep(s, k, PageIs(page)), k, PageIs(page))
  {
    var call := s.calls[k];
    var list := Extend(call.before, call.more, Reply(call.request, page));
    var b := Answered(RecordOf(s, call.request.id), call.request.feed, list);
    PageStep(s, k, PageIs(page));
    AnsweredShape(DropCall(s, k), call, page);
    PatchShows(DropCall(s, k), call.request.id, b);
    assert IsReady(RecordOf(s, call.request.id), b, call.request.feed);
  }

  lemma SectionComes(s: State, k: nat, page: Page)
    requires k in s.calls && s.calls[k].PageCall? && Live(s, KeyOf(s.calls[k].request), k)
    requires s.calls[k].request.feed.Section?
    ensures PageAnswered(s, SettleStep(s, k, PageIs(page)), k, PageIs(page))
  {
    var call := s.calls[k];
    var list := Extend(call.before, call.more, Reply(call.request, page));
    PageStep(s, k, PageIs(page));
    SetShows(DropCall(s, k), call.request.id, call.request.feed.query, SectionState(Ready, list));
    SetSections(DropCall(s, k), call.request.id, call.request.feed.query, SectionState(Ready, list));
    assert [] + page.tracks == page.tracks;
  }

  lemma ListFailShape(s: State, k: nat, error: Error)
    requires k in s.calls && s.calls[k].PageCall? && Live(s, KeyOf(s.calls[k].request), k)
    requires !s.calls[k].request.feed.Section?
    ensures var r := s.calls[k].request; var rest := DropCall(s, k);
            SettleStep(s, k, Rejected(error))
              == Fail(Patch(rest, r.id, Refused(RecordOf(s, r.id), r.feed)), r.id, SlotOf(r.feed), error)
  {
    PageStep(s, k, Rejected(error));
    RefusedShape(DropCall(s, k), s.calls[k], error);
  }

  lemma RefusedIsErrored(was: Browse, feed: Feed, message: string)
    requires !feed.Section?
    ensures var b := Refused(was, feed); IsErrored(was, b.(errors := b.errors[SlotOf(feed) := message]), feed, message)
  {
  }

  lemma ListFails(s: State, k: nat, error: Error)
    requires Tokens(s) && k in s.calls && s.calls[k].PageCall? && Live(s, KeyOf(s.calls[k].request), k)
    requires !s.calls[k].request.feed.Section?
    ensures PageAnswered(s, SettleStep(s, k, Rejected(error)), k, Rejected(error))
  {
    var r := s.calls[k].request;
    var rest := DropCall(s, k);
    ListFailShape(s, k, error);
    if error.expired {
      DropTokens(s, k);
      ExpiryNoted(rest, r.id, Refused(RecordOf(s, r.id), r.feed), SlotOf(r.feed), error);
    } else {
      FailureNoted(rest, r.id, Refused(RecordOf(s, r.id), r.feed), SlotOf(r.feed), error);
      RefusedIsErrored(RecordOf(s, r.id), r.feed, error.message);
    }
  }

  lemma SectionFailShape(s: State, k: nat, error: Error)
    requires k in s.calls && s.calls[k].PageCall? && Live(s, KeyOf(s.calls[k].request), k)
    requires s.calls[k].request.feed.Section?
    ensures var r := s.calls[k].request;
            SettleStep(s, k, Rejected(error))
              == Fail(SetSection(DropCall(s, k), r.id, r.feed.query, SectionOf(s, r.id).(status := Errored)), r.id,
                      "search", error)
  {
  }

  lemma SetTokens(s: State, id: Source, query: string, section: SectionState)
    requires Tokens(s)
    ensures Tokens(SetSection(s, id, query, section)) && Epoch(SetSection(s, id, query, section), id) == Epoch(s, id)
  {
  }

  lemma ShowsThrough(s: State, u: State, t: State, id: Source, b: Browse)
    requires Shows(s, u, id, RecordOf(s, id)) && Shows(u, t, id, b)
    ensures Shows(s, t, id, b)
  {
  }

  lemma SectionFails(s: State, k: nat, error: Error)
    requires Tokens(s) && k in s.calls && s.calls[k].PageCall? && Live(s, KeyOf(s.calls[k].request), k)
    requires s.calls[k].request.feed.Section?
    ensures PageAnswered(s, SettleStep(s, k, Rejected(error)), k, Rejected(error))
  {
    var r := s.calls[k].request;
    var rest := DropCall(s, k);
    var section := SectionOf(s, r.id).(status := Errored);
    var shown := SetSection(rest, r.id, r.feed.query, section);
    SectionFailShape(s, k, error);
    SetShows(rest, r.id, r.feed.query, section);
    SetSections(rest, r.id, r.feed.query, section);
    DropTokens(s, k);
    SetTokens(rest, r.id, r.feed.query, section);
    FailPlain(shown, r.id, "search", error);
    ShowsThrough(s, shown, Fail(shown, r.id, "search", error), r.id,
                 RecordOf(Fail(shown, r.id, "search", error), r.id));
  }

  /** A failure with no other change to the record. */
  lemma FailPlain(s: State, id: Source, slot: string, error: Error)
    requires Tokens(s)
    ensures var t := Fail(s, id, slot, error); var was := RecordOf(s, id);
            && t.global == s.global
            && (if error.expired then ShownExpired(s, t, id)
                else Shows(s, t, id, was.(errors := was.errors[slot := error.message])) && t.calls == s.calls)
  {
    FailUnpatched(s, id, slot, error);
    if error.expired {
      ExpiryNoted(s, id, RecordOf(s, id), slot, error);
    } else {
      FailureNoted(s, id, RecordOf(s, id), slot, error);
    }
  }

  lemma PageAnswers(s: State, k: nat, outcome: Outcome)
    requires Tokens(s) && k in s.calls && s.calls[k].PageCall? && Live(s, KeyOf(s.calls[k].request), k)
    requires Fits(s.calls[k], outcome)
    ensures PageAnswered(s, SettleStep(s, k, outcome), k, outcome)
  {
    var section := s.calls[k].request.feed.Section?;
    match outcome {
      case PageIs(page) => if section { SectionComes(s, k, page); } else { ListComes(s, k, page); }
      case Rejected(error) => if section { SectionFails(s, k, error); } else { ListFails(s, k, error); }
    }
  }

  // ---------- sessions and sign-in ----------

  lemma DropShows(s: State, k: nat, t: State, id: Source, b: Browse)
    requires Shows(DropCall(s, k), t, id, b)
    ensures Shows(s, t, id, b)
  {
  }

  lemma DropExpired(s: State, k: nat, t: State, id: Source)
    requires ShownExpired(DropCall(s, k), t, id)
    ensures ShownExpired(s, t, id)
  {
    DropShows(s, k, t, id, RecordOf(t, id));
  }

  lemma DropFails(s: State, k: nat, t: State, id: Source, b: Browse, error: Error)
    requires Failed(DropCall(s, k), t, id, b, error)
    ensures Failed(s, t, id, b, error)
  {
    if error.expired {
      DropExpired(s, k, t, id);
    } else {
      DropShows(s, k, t, id, b);
    }
  }

  /** A failure of the source: an expired session starts it over, any other leaves this record. */
  ghost predicate Failed(s: State, t: State, id: Source, b: Browse, error: Error) {
    if error.expired then ShownExpired(s, t, id) else Shows(s, t, id, b)
  }

  lemma PatchFails(s: State, id: Source, b: Browse, slot: string, error: Error)
    requires Tokens(s)
    ensures var t := Fail(Patch(s, id, b), id, slot, error);
            Failed(s, t, id, b.(errors := b.errors[slot := error.message]), error) && SameSections(s, t)
  {
    if error.expired {
      ExpiryNoted(s, id, b, slot, error);
    } else {
      FailureNoted(s, id, b, slot, error);
    }
  }

  ghost predicate SessionAnswered(s: State, t: State, k: nat, outcome: Outcome)
    requires k in s.calls && s.calls[k].SessionCall? && Fits(s.calls[k], outcome)
  {
    var id := s.calls[k].id; var was := RecordOf(s, id);
    && SameSections(s, t)
    && match outcome
       case SessionIs(session) => Shows(s, t, id, was.(session := Some(session), sessionStatus := Ready))
       case Rejected(error) =>
         Failed(s, t, id, was.(sessionStatus := Errored, errors := was.errors["session" := error.message]), error)
       case _ => false
  }

  lemma LateShows(s: State, t: State, id: Source, b: Browse, call: Call)
    requires Shows(s, t, id, b)
    ensures Shows(s, AddCall(t, call), id, b)
  {
  }

  lemma LateExpired(s: State, t: State, id: Source, call: Call)
    requires ShownExpired(s, t, id) && Held(call) == None
    ensures ShownExpired(s, AddCall(t, call), id)
  {
    LateSilent(t, id, call);
  }

  lemma SessionPart(s: State, call: Call, outcome: Outcome)
    requires Tokens(s) && call.SessionCall? && call.thenSearch.None? && Fits(call, outcome)
    requires Current(s, Key(call.id, OnSession), call.token)
    ensures var t := SettleSession(s, call, outcome); var was := RecordOf(s, call.id);
            && SameSections(s, t)
            && (outcome.SessionIs? ==>
                  Shows(s, t, call.id, was.(session := Some(outcome.session), sessionStatus := Ready)))
            && (outcome.Rejected? ==>
                  Failed(s, t, call.id, was.(sessionStatus := Errored,
                                             errors := was.errors["session" := outcome.error.message]), outcome.error))
  {
    if outcome.Rejected? {
      PatchFails(s, call.id, RecordOf(s, call.id).(sessionStatus := Errored), "session", outcome.error);
    }
  }

  lemma SessionStep(s: State, k: nat, outcome: Outcome)
    requires k in s.calls && s.calls[k].SessionCall?
    ensures var call := s.calls[k]; var settled := SettleSession(DropCall(s, k), call.(thenSearch := None), outcome);
            SettleStep(s, k, outcome)
              == if call.thenSearch.Some? then AddCall(settled, SectionStart(call.id, call.thenSearch.value))
                  else settled
  {
  }

  lemma LateFails(s: State, t: State, id: Source, b: Browse, error: Error, call: Call)
    requires Failed(s, t, id, b, error) && Held(call) == None
    ensures Failed(s, AddCall(t, call), id, b, error)
  {
    if error.expired {
      LateExpired(s, t, id, call);
    } else {
      LateShows(s, t, id, b, call);
    }
  }

  lemma SessionAnswers(s: State, k: nat, outcome: Outcome)
    requires Tokens(s) && k in s.calls && s.calls[k].SessionCall? && Live(s, Key(s.calls[k].id, OnSession), k)
    requires Fits(s.calls[k], outcome)
    ensures SessionAnswered(s, SettleStep(s, k, outcome), k, outcome)
  {
    DropTokens(s, k);
    SessionStep(s, k, outcome);
    SessionPart(DropCall(s, k), s.calls[k].(thenSearch := None), outcome);
    match outcome {
      case SessionIs(session) => SessionShows(s, k, session);
      case Rejected(error) => SessionFails(s, k, error);
    }
  }

  lemma SessionShows(s: State, k: nat, session: Session)
    requires k in s.calls && s.calls[k].SessionCall?
    requires var call := s.calls[k]; var rest := DropCall(s, k);
             Shows(rest, SettleSession(rest, call.(thenSearch := None), SessionIs(session)), call.id,
                   RecordOf(s, call.id).(session := Some(session), sessionStatus := Ready))
    ensures var call := s.calls[k];
            Shows(s, SettleStep(s, k, SessionIs(session)), call.id,
                  RecordOf(s, call.id).(session := Some(session), sessionStatus := Ready))
  {
    var call := s.calls[k];
    var settled := SettleSession(DropCall(s, k), call.(thenSearch := None), SessionIs(session));
    var b := RecordOf(s, call.id).(session := Some(session), sessionStatus := Ready);
    SessionStep(s, k, SessionIs(session));
    DropShows(s, k, settled, call.id, b);
    if call.thenSearch.Some? {
      LateShows(s, settled, call.id, b, SectionStart(call.id, call.thenSearch.value));
    }
  }

  lemma SessionFails(s: State, k: nat, error: Error)
    requires k in s.calls && s.calls[k].SessionCall?
    requires var call := s.calls[k]; var rest := DropCall(s, k); var was := RecordOf(s, call.id);
             Failed(rest, SettleSession(rest, call.(thenSearch := None), Rejected(error)), call.id,
                    was.(sessionStatus := Errored, errors := was.errors["session" := error.message]), error)
    ensures var call := s.calls[k]; var was := RecordOf(s, call.id);
            Failed(s, SettleStep(s, k, Rejected(error)), call.id,
                   was.(sessionStatus := Errored, errors := was.errors["session" := error.message]), error)
  {
    var call := s.calls[k];
    var was := RecordOf(s, call.id);
    var settled := SettleSession(DropCall(s, k), call.(thenSearch := None), Rejected(error));
    var b := was.(sessionStatus := Errored, errors := was.errors["session" := error.message]);
    SessionStep(s, k, Rejected(error));
    DropFails(s, k, settled, call.id, b, error);
    if call.thenSearch.Some? {
      LateFails(s, settled, call.id, b, error, SectionStart(call.id, call.thenSearch.value));
    }
  }

  /** Only the cancellation of the challenge that is still stored shows in the record. */
  ghost predicate CancelAnswered(s: State, t: State, k: nat, outcome: Outcome)
    requires k in s.calls && s.calls[k].CancelCall? && Fits(s.calls[k], outcome)
  {
    var id := s.calls[k].id; var was := RecordOf(s, id);
    && SameSections(s, t)
    && if was.challenge != Some(s.calls[k].challenge) then Shows(s, t, id, was)
       else match outcome
         case Done => Shows(s, t, id, was.(challenge := None, authStatus := Idle))
         case Rejected(error) => Failed(s, t, id, was.(errors := was.errors["auth" := error.message]), error)
         case _ => false
  }

  lemma CancelDone(s: State, call: Call)
    requires call.CancelCall? && Current(s, Key(call.id, OnAuth), call.token)
    requires RecordOf(s, call.id).challenge == Some(call.challenge)
    ensures var t := CancelSettled(s, call, Done);
            && Shows(s, t, call.id, RecordOf(s, call.id).(challenge := None, authStatus := Idle)) && SameSections(s, t)
  {
    PatchShows(s, call.id, RecordOf(s, call.id).(challenge := None, authStatus := Idle));
  }

  lemma CancelRefused(s: State, call: Call, error: Error)
    requires Tokens(s) && call.CancelCall? && Current(s, Key(call.id, OnAuth), call.token)
    requires RecordOf(s, call.id).challenge == Some(call.challenge)
    ensures var t := CancelSettled(s, call, Rejected(error)); var was := RecordOf(s, call.id);
            && Failed(s, t, call.id, was.(errors := was.errors["auth" := error.message]), error) && SameSections(s, t)
  {
    FailPlain(s, call.id, "auth", error);
  }

  lemma CancelStep(s: State, k: nat, outcome: Outcome)
    requires k in s.calls && s.calls[k].CancelCall?
    ensures var call := s.calls[k]; var settled := CancelSettled(DropCall(s, k), call, outcome);
            SettleStep(s, k, outcome) == if call.thenOpen then AddCall(settled, OpenAfterCancel(call.id)) else settled
  {
  }

  lemma CancelShows(s: State, k: nat, outcome: Outcome, b: Browse)
    requires k in s.calls && s.calls[k].CancelCall?
    requires Shows(DropCall(s, k), CancelSettled(DropCall(s, k), s.calls[k], outcome), s.calls[k].id, b)
    ensures Shows(s, SettleStep(s, k, outcome), s.calls[k].id, b)
  {
    var call := s.calls[k];
    var settled := CancelSettled(DropCall(s, k), call, outcome);
    CancelStep(s, k, outcome);
    DropShows(s, k, settled, call.id, b);
    LateShows(s, settled, call.id, b, OpenAfterCancel(call.id));
  }

  lemma CancelFails(s: State, k: nat, b: Browse, error: Error)
    requires k in s.calls && s.calls[k].CancelCall?
    requires Failed(DropCall(s, k), CancelSettled(DropCall(s, k), s.calls[k], Rejected(error)), s.calls[k].id, b, error)
    ensures Failed(s, SettleStep(s, k, Rejected(error)), s.calls[k].id, b, error)
  {
    var call := s.calls[k];
    var settled := CancelSettled(DropCall(s, k), call, Rejected(error));
    CancelStep(s, k, Rejected(error));
    DropFails(s, k, settled, call.id, b, error);
    LateFails(s, settled, call.id, b, error, OpenAfterCancel(call.id));
  }

  lemma CancelAnswers(s: State, k: nat, outcome: Outcome)
    requires Tokens(s) && k in s.calls && s.calls[k].CancelCall? && Live(s, Key(s.calls[k].id, OnAuth), k)
    requires Fits(s.calls[k], outcome)
    ensures CancelAnswered(s, SettleStep(s, k, outcome), k, outcome)
  {
    var call := s.calls[k];
    var was := RecordOf(s, call.id);
    DropTokens(s, k);
    CancelStep(s, k, outcome);
    if was.challenge != Some(call.challenge) {
      SameRecordsShow(DropCall(s, k), DropCall(s, k), call.id);
      CancelShows(s, k, outcome, was);
    } else if outcome.Done? {
      CancelDone(DropCall(s, k), call);
      CancelShows(s, k, outcome, was.(challenge := None, authStatus := Idle));
    } else {
      CancelRefused(DropCall(s, k), call, outcome.error);
      CancelFails(s, k, was.(errors := was.errors["auth" := outcome.error.message]), outcome.error);
    }
  }

  lemma OpeningStep(s: State, k: nat)
    requires k in s.calls && s.calls[k].OpenAfterCancel? && RecordOf(s, s.calls[k].id).challenge.None?
    ensures var id := s.calls[k].id; var was := RecordOf(s, id); var key := Key(id, OnAuth);
            var b := was.(authStatus := Loading, signInError := None, errors := was.errors - {"auth"});
            SettleStep(s, k, Done)
              == AddCall(Patch(Bump(DropCall(s, k), key), id, b), OpenCall(id, Generation(s, key) + 1))
  {
  }

  lemma OpeningShows(s: State, k: nat)
    requires k in s.calls && s.calls[k].OpenAfterCancel? && RecordOf(s, s.calls[k].id).challenge.None?
    ensures var id := s.calls[k].id; var was := RecordOf(s, id); var t := SettleStep(s, k, Done);
            && Shows(s, t, id, was.(authStatus := Loading, signInError := None, errors := was.errors - {"auth"}))
            && SameSections(s, t)
  {
    var id := s.calls[k].id;
    var was := RecordOf(s, id);
    OpeningStep(s, k);
    SentShows(s, SettleStep(s, k, Done), id,
              was.(authStatus := Loading, signInError := None, errors := was.errors - {"auth"}));
  }

  /** All that a step with one new record shows is that record. */
  lemma SentShows(s: State, t: State, id: Source, b: Browse)
    requires t.records == s.records[id := b] && t.view == s.view && t.active == s.active && t.sources == s.sources
    requires t.global.query == s.global.query
    ensures Shows(s, t, id, b)
  {
  }

  ghost predicate OpenAnswered(s: State, t: State, k: nat, outcome: Outcome)
    requires k in s.calls && s.calls[k].OpenCall? && Fits(s.calls[k], outcome)
  {
    var id := s.calls[k].id; var was := RecordOf(s, id);
    && SameSections(s, t)
    && match outcome
       case ChallengeIs(challenge) => Shows(s, t, id, was.(challenge := Some(challenge), authStatus := Ready))
       case Rejected(error) =>
         Failed(s, t, id, was.(authStatus := Errored, errors := was.errors["auth" := error.message]), error)
       case _ => false
  }

  lemma OpenStep(s: State, k: nat, outcome: Outcome)
    requires k in s.calls && s.calls[k].OpenCall?
    ensures SettleStep(s, k, outcome) == SettleOpen(DropCall(s, k), s.calls[k], outcome)
  {
  }

  lemma ChallengeShows(s: State, call: Call, challenge: Challenge)
    requires call.OpenCall? && Current(s, Key(call.id, OnAuth), call.token)
    ensures var t := SettleOpen(s, call, ChallengeIs(challenge));
            && Shows(s, t, call.id, RecordOf(s, call.id).(challenge := Some(challenge), authStatus := Ready))
            && SameSections(s, t)
  {
    var b := RecordOf(s, call.id).(challenge := Some(challenge), authStatus := Ready);
    PatchShows(s, call.id, b);
    LateShows(s, Patch(s, call.id, b), call.id, b, PollTimer(call.id, challenge, call.token));
  }

  lemma OpenFails(s: State, call: Call, error: Error)
    requires Tokens(s) && call.OpenCall? && Current(s, Key(call.id, OnAuth), call.token)
    ensures var t := SettleOpen(s, call, Rejected(error)); var was := RecordOf(s, call.id);
            && Failed(s, t, call.id, was.(authStatus := Errored, errors := was.errors["auth" := error.message]), error)
            && SameSections(s, t)
  {
    PatchFails(s, call.id, RecordOf(s, call.id).(authStatus := Errored), "auth", error);
  }

  lemma OpenAnswers(s: State, k: nat, outcome: Outcome)
    requires Tokens(s) && k in s.calls && s.calls[k].OpenCall? && Live(s, Key(s.calls[k].id, OnAuth), k)
    requires Fits(s.calls[k], outcome)
    ensures OpenAnswered(s, SettleStep(s, k, outcome), k, outcome)
  {
    var id := s.calls[k].id;
    var was := RecordOf(s, id);
    OpenStep(s, k, outcome);
    DropTokens(s, k);
    match outcome {
      case ChallengeIs(challenge) =>
        ChallengeShows(DropCall(s, k), s.calls[k], challenge);
        DropShows(s, k, SettleStep(s, k, outcome), id, was.(challenge := Some(challenge), authStatus := Ready));
      case Rejected(error) =>
        OpenFails(DropCall(s, k), s.calls[k], error);
        DropFails(s, k, SettleStep(s, k, outcome), id,
                  was.(authStatus := Errored, errors := was.errors["auth" := error.message]), error);
    }
  }

  /** What a poll without an error leaves in the record: one that ends the loop without a session says why. */
  function Polled(s: State, id: Source, result: PollResult): Browse {
    var was := RecordOf(s, id);
    match result
    case Pending => was
    case Complete(Some(session)) =>
      if Accepts(s, id) then EMPTY_BROWSE.(session := Some(session), sessionStatus := Ready) else was
    case Complete(None) => was.(challenge := None, errors := was.errors["auth" := "complete"])
    case Other(state) => was.(challenge := None, errors := was.errors["auth" := state])
  }

  ghost predicate PollAnswered(s: State, t: State, k: nat, outcome: Outcome)
    requires k in s.calls && s.calls[k].PollCall? && Fits(s.calls[k], outcome)
  {
    var id := s.calls[k].id; var was := RecordOf(s, id);
    && SameSections(s, t)
    && match outcome
       case PollIs(result) => Shows(s, t, id, Polled(s, id, result))
       case Rejected(error) =>
         Failed(s, t, id, was.(challenge := None, authStatus := Idle, errors := was.errors["auth" := error.message]),
                error)
       case _ => false
  }

  lemma PollStep(s: State, k: nat, outcome: Outcome)
    requires k in s.calls && s.calls[k].PollCall?
    ensures SettleStep(s, k, outcome) == SettlePoll(DropCall(s, k), s.calls[k], outcome)
  {
  }

  lemma PollShows(s: State, call: Call, result: PollResult)
    requires call.PollCall? && Current(s, Key(call.id, OnAuth), call.token)
    ensures var t := SettlePoll(s, call, PollIs(result));
            Shows(s, t, call.id, Polled(s, call.id, result)) && SameSections(s, t)
  {
    match result {
      case Complete(Some(session)) => AcceptShows(s, call.id, session);
      case Pending =>
        SameRecordsShow(s, Arm(s, call.id, call.challenge, call.token), call.id);
      case _ => PatchShows(s, call.id, Polled(s, call.id, result));
    }
  }

  lemma PollFails(s: State, call: Call, error: Error)
    requires Tokens(s) && call.PollCall? && Current(s, Key(call.id, OnAuth), call.token)
    ensures var t := SettlePoll(s, call, Rejected(error)); var was := RecordOf(s, call.id);
            && Failed(s, t, call.id, was.(challenge := None, authStatus := Idle,
                                          errors := was.errors["auth" := error.message]), error)
            && SameSections(s, t)
  {
    PatchFails(s, call.id, RecordOf(s, call.id).(challenge := None, authStatus := Idle), "auth", error);
  }

  lemma PollAnswers(s: State, k: nat, outcome: Outcome)
    requires Tokens(s) && k in s.calls && s.calls[k].PollCall? && Live(s, Key(s.calls[k].id, OnAuth), k)
    requires Fits(s.calls[k], outcome)
    ensures PollAnswered(s, SettleStep(s, k, outcome), k, outcome)
  {
    var id := s.calls[k].id;
    var was := RecordOf(s, id);
    PollStep(s, k, outcome);
    DropTokens(s, k);
    match outcome {
      case PollIs(result) =>
        PollShows(DropCall(s, k), s.calls[k], result);
        DropShows(s, k, SettleStep(s, k, outcome), id, Polled(DropCall(s, k), id, result));
      case Rejected(error) =>
        PollFails(DropCall(s, k), s.calls[k], error);
        DropFails(s, k, SettleStep(s, k, outcome), id,
                  was.(challenge := None, authStatus := Idle, errors := was.errors["auth" := error.message]), error);
    }
  }

  lemma AcceptShows(s: State, id: Source, session: Session)
    ensures var t := AcceptSignInStep(s, id, session);
            && Shows(s, t, id, if Accepts(s, id) then EMPTY_BROWSE.(session := Some(session), sessionStatus := Ready)
                               else RecordOf(s, id))
            && SameSections(s, t)
  {
    ResetShows(s, id, EMPTY_BROWSE.(session := Some(session), sessionStatus := Ready));
  }

  ghost predicate SignOutAnswered(s: State, t: State, id: Source, outcome: Outcome)
    requires outcome.SessionIs? || outcome.Rejected?
  {
    && SameSections(s, t)
    && match outcome
       case SessionIs(session) => Shows(s, t, id, EMPTY_BROWSE.(session := Some(session), sessionStatus := Ready))
       case Rejected(error) =>
         Failed(s, t, id, RecordOf(s, id).(errors := RecordOf(s, id).errors["auth" := error.message]), error)
       case _ => false
  }

  lemma SignOutStep(s: State, k: nat, outcome: Outcome)
    requires k in s.calls && s.calls[k].SignOutCall?
    ensures SettleStep(s, k, outcome) == SettleSignOut(DropCall(s, k), s.calls[k].id, outcome)
  {
  }

  lemma SignOutAnswers(s: State, k: nat, outcome: Outcome)
    requires Tokens(s) && k in s.calls && s.calls[k].SignOutCall? && Fits(s.calls[k], outcome)
    ensures SignOutAnswered(s, SettleStep(s, k, outcome), s.calls[k].id, outcome)
  {
    var id := s.calls[k].id;
    var was := RecordOf(s, id);
    DropTokens(s, k);
    SignOutStep(s, k, outcome);
    match outcome {
      case SessionIs(session) =>
        ResetShows(DropCall(s, k), id, EMPTY_BROWSE.(session := Some(session), sessionStatus := Ready));
        DropShows(s, k, SettleStep(s, k, outcome), id, EMPTY_BROWSE.(session := Some(session), sessionStatus := Ready));
      case Rejected(error) =>
        FailPlain(DropCall(s, k), id, "auth", error);
        DropFails(s, k, SettleStep(s, k, outcome), id, was.(errors := was.errors["auth" := error.message]), error);
    }
  }

  // ---------- actions ----------

  ghost predicate LikedAnswered(s: State, t: State, more: bool) {
    var id := ActiveId(s); var was := RecordOf(s, id);
    && SameSections(s, t)
    && (was.likedStatus != Loading && (more ==> was.liked.cursor !in {None, Some("")}) ==>
          Shows(s, t, id, was.(likedStatus := Loading, likedLoadingMore := more)))
  }

  lemma SendShows(s: State, id: Source, feed: Feed, more: bool, before: Listing, cursor: Option<string>, b: Browse)
    ensures var t := SendPage(s, id, feed, more, before, cursor, b); Shows(s, t, id, b) && SameSections(s, t)
  {
    SentShows(s, SendPage(s, id, feed, more, before, cursor, b), id, b);
  }

  lemma LikedAnswers(s: State, more: bool)
    ensures LikedAnswered(s, LoadLikedStep(s, more), more)
  {
    var was := RecordOf(s, ActiveId(s));
    SendShows(s, ActiveId(s), Liked, more, was.liked, if more then was.liked.cursor else None,
              was.(likedStatus := Loading, likedLoadingMore := more));
  }

  /** The playlist is open, as it is cached; it is ready only if nothing more of it is wanted. */
  ghost predicate PlaylistAnswered(s: State, t: State, remote: Remote, more: bool) {
    var id := ActiveId(s); var was := RecordOf(s, id);
    var cached := if remote in was.details then Some(was.details[remote]) else None;
    && SameSections(s, t)
    && (!more || (cached.Some? && cached.value.cursor !in {None, Some("")}) ==>
          Shows(s, t, id, was.(selected := Some(remote), detail := cached,
                               detailStatus := if cached.Some? && !more then Ready else Loading)))
  }

  lemma PlaylistAnswers(s: State, remote: Remote, more: bool)
    ensures PlaylistAnswered(s, OpenPlaylistStep(s, remote, more), remote, more)
  {
    var id := ActiveId(s);
    var was := RecordOf(s, id);
    var before := if remote in was.details then was.details[remote] else NO_LISTING;
    PatchShows(s, id, Shown(was, remote, more));
    SendShows(s, id, Playlist(remote), more, before, if more then before.cursor else None, Shown(was, remote, more));
  }

  /** Of a playlist that is cached nothing is asked for, unless more of it is wanted or its last request failed. */
  ghost predicate PlaylistAsks(s: State, t: State, remote: Remote, more: bool) {
    var id := ActiveId(s); var was := RecordOf(s, id); var known := remote in was.details;
    && (known && !more && was.detailStatus != Errored ==> t.calls == s.calls && t.nextId == s.nextId)
    && (!(known && !more && was.detailStatus != Errored)
        && (more ==> known && was.details[remote].cursor !in {None, Some("")}) ==>
          var cursor := if more then was.details[remote].cursor else None;
          Asked(s, t, Request(id, Playlist(remote), cursor, Epoch(s, id)), more))
  }

  lemma PlaylistIsAsked(s: State, remote: Remote, more: bool)
    ensures PlaylistAsks(s, OpenPlaylistStep(s, remote, more), remote, more)
  {
    var id := ActiveId(s);
    var was := RecordOf(s, id);
    var before := if remote in was.details then was.details[remote] else NO_LISTING;
    SendAsks(s, id, Playlist(remote), more, before, if more then before.cursor else None, Shown(was, remote, more));
  }

  /** The search is shown loading under its trimmed query; a blank one leaves no query and no results. */
  ghost predicate SearchAnswered(s: State, t: State, query: string, more: bool) {
    var id := ActiveId(s); var was := RecordOf(s, id);
    && SameSections(s, t)
    && (Trim(query) == "" ==> Shows(s, t, id, was.(searchQuery := "", search := NO_LISTING, searchStatus := Idle)))
    && (Trim(query) != "" && (more ==> was.search.cursor !in {None, Some("")} && was.searchStatus != Loading) ==>
          Shows(s, t, id, was.(searchQuery := Trim(query), searchStatus := Loading,
                               search := if more then was.search else NO_LISTING)))
  }

  lemma ClearAnswers(s: State)
    ensures var was := RecordOf(s, ActiveId(s)); var t := ClearSearchStep(s);
            && Shows(s, t, ActiveId(s), was.(searchQuery := "", search := NO_LISTING, searchStatus := Idle))
            && SameSections(s, t)
  {
    SentShows(s, ClearSearchStep(s), ActiveId(s),
              RecordOf(s, ActiveId(s)).(searchQuery := "", search := NO_LISTING, searchStatus := Idle));
  }

  lemma SearchAnswers(s: State, query: string, more: bool)
    ensures SearchAnswered(s, RunSearchStep(s, query, more), query, more)
  {
    var id := ActiveId(s);
    var was := RecordOf(s, id);
    if Trim(query) == "" {
      ClearAnswers(s);
    } else {
      SendShows(s, id, Search(Trim(query)), more, was.search, if more then was.search.cursor else None,
                Searching(was, Trim(query), more));
    }
  }

  lemma CloseAnswers(s: State)
    ensures var was := RecordOf(s, ActiveId(s)); var t := ClosePlaylistStep(s);
            && Shows(s, t, ActiveId(s), was.(detail := None, selected := None, detailStatus := Idle))
            && SameSections(s, t)
  {
    PatchShows(s, ActiveId(s), RecordOf(s, ActiveId(s)).(detail := None, selected := None, detailStatus := Idle));
  }

  lemma LoadSessionAnswers(s: State, id: Source, thenSearch: Option<string>)
    ensures var t := LoadSessionStep(s, id, thenSearch);
            Shows(s, t, id, RecordOf(s, id).(sessionStatus := Loading)) && SameSections(s, t)
  {
    SentShows(s, LoadSessionStep(s, id, thenSearch), id, RecordOf(s, id).(sessionStatus := Loading));
  }

  /** Without a challenge nothing is under way any more; with one the record stays until it is cancelled. */
  lemma CancelSignInAnswers(s: State, id: Source, thenOpen: bool)
    ensures var was := RecordOf(s, id); var t := CancelSignInStep(s, id, thenOpen);
            && Shows(s, t, id, if was.challenge.None? then was.(authStatus := Idle) else was) && SameSections(s, t)
  {
    var was := RecordOf(s, id);
    if was.challenge.None? {
      SentShows(s, CancelSignInStep(s, id, thenOpen), id, was.(authStatus := Idle));
    } else {
      SameRecordsShow(s, CancelSignInStep(s, id, thenOpen), id);
    }
  }

  lemma SignInErrorAnswers(s: State, id: Source, challenge: Challenge, message: string)
    ensures var was := RecordOf(s, id); var t := SetSignInErrorStep(s, id, challenge, message);
            && SameSections(s, t)
            && (Usable(FindSource(s.sources, id)) && was.challenge == Some(challenge) ==>
                  Shows(s, t, id, was.(signInError := Some(message), challenge := None, authStatus := Errored)))
  {
    if SetSignInErrorStep(s, id, challenge, message) != s {
      SentShows(s, SetSignInErrorStep(s, id, challenge, message), id,
                RecordOf(s, id).(signInError := Some(message), challenge := None, authStatus := Errored));
    }
  }

  /** A source that may be searched now. */
  predicate CanBeSearched(source: SourceInfo) {
    && source.installed && source.enabled && source.loaded && source.canSearch
    && (source.state.Installing? || source.state.Usual? || source.state.WaitingForIdle?)
  }

  lemma {:induction false} CandidatesAre(sources: seq<SourceInfo>, id: Source)
    ensures id in Candidates(sources) <==> exists source <- sources :: source.id == id && CanBeSearched(source)
    decreases |sources|
  {
    if sources != [] {
      var rest := sources[1..];
      CandidatesAre(rest, id);
      if id in Candidates(rest) {
        var source :| source in rest && source.id == id && CanBeSearched(source);
        assert source in sources;
      } else if id in Candidates(sources) {
        assert sources[0] in sources && sources[0].id == id && CanBeSearched(sources[0]);
      } else {
        assert forall source <- sources :: source == sources[0] || source in rest;
      }
    }
  }

  /** A search everywhere shows an empty, loading section for exactly the sources that may be searched. */
  ghost predicate EverywhereAnswered(s: State, t: State, query: string) {
    && t.view == SearchView && t.active.None? && t.records == s.records && t.sources == s.sources
    && t.global.query == Trim(query)
    && (forall id :: id in t.global.sections <==>
          exists source <- s.sources :: source.id == id && CanBeSearched(source))
    && (forall id <- t.global.sections :: t.global.sections[id] == SectionState(Loading, NO_LISTING))
  }

  lemma {:induction false} StartsShow(s: State, ids: seq<Source>, query: string)
    ensures var t := AddStarts(s, ids, query);
            && t.view == s.view && t.active == s.active && t.records == s.records && t.sources == s.sources
            && t.global == s.global
    decreases |ids|
  {
    if ids != [] {
      StartsShow(AddCall(s, SectionStart(ids[0], query)), ids[1..], query);
    }
  }

  lemma EverywhereAnswers(s: State, query: string)
    requires Trim(query) != ""
    ensures EverywhereAnswered(s, SearchEverywhereStep(s, query), query)
  {
    var ids := Candidates(s.sources);
    StartsShow(s.(view := SearchView, active := None, top := EMPTY_BROWSE,
                  global := GlobalSearch(Trim(query), map id | id in ids :: SectionState(Loading, NO_LISTING))),
               ids, Trim(query));
    forall id ensures id in ids <==> exists source <- s.sources :: source.id == id && CanBeSearched(source) {
      CandidatesAre(s.sources, id);
    }
  }

  /** The source of a section may be asked: it can be searched, and its session is good if it needs one. */
  predicate MayBeAsked(s: State, id: Source) {
    var source := FindSource(s.sources, id); var session := RecordOf(s, id).session;
    && source.Some? && CanBeSearched(source.value)
    && (source.value.searchNeedsSession ==> session.Some? && session.value.signedIn && !session.value.expired)
  }

  lemma AskedExactlyWhen(s: State, id: Source)
    ensures MaySearch(FindSource(s.sources, id), RecordOf(s, id).session) <==> MayBeAsked(s, id)
  {
  }

  /** A section that goes on keeps its list, and is shown loading or, if its source may not be asked, signed out. */
  ghost predicate SectionGoesOn(s: State, t: State, id: Source, query: string) {
    && Shows(s, t, id, RecordOf(s, id)) && OtherSections(s, t, id, query)
    && (IsShown(s, id, query) ==>
          t.global.sections[id]
            == s.global.sections[id].(status := if MayBeAsked(s, id) then Loading else SignedOut))
  }

  lemma SectionAnswers(s: State, id: Source, query: string, cursor: Option<string>)
    ensures SectionGoesOn(s, SearchSectionStep(s, id, query, cursor), id, query)
  {
    AskedExactlyWhen(s, id);
    var t := SearchSectionStep(s, id, query, cursor);
    if MayBeAsked(s, id) {
      SearchSectionShape(s, id, query, cursor);
      SetSections(s, id, query, SectionOf(s, id).(status := Loading));
    } else {
      SetSections(s, id, query, SectionOf(s, id).(status := SignedOut));
    }
    SameRecordsShow(s, t, id);
  }

  /** A section goes on if it is not loading and there is more, or it failed. */
  predicate WantsMore(s: State, id: Source) {
    && id in s.global.sections && s.global.sections[id].status in {Idle, Ready, Errored, SignedOut}
    && (s.global.sections[id].status == Errored || s.global.sections[id].listing.cursor !in {None, Some("")})
  }

  lemma WantsExactlyWhen(s: State, id: Source)
    ensures GoesOnIn(s, id) <==> WantsMore(s, id)
  {
  }

  /** A part of a search everywhere asks for the session if nobody has yet, and for the first page otherwise. */
  ghost predicate PartAnswered(s: State, t: State, id: Source, query: string) {
    var was := RecordOf(s, id);
    if was.sessionStatus == Idle
    then && Shows(s, t, id, was.(sessionStatus := Loading)) && SameSections(s, t)
         && Live(t, Key(id, OnSession), s.nextId) && t.calls[s.nextId].SessionCall?
         && t.calls[s.nextId].thenSearch == Some(query)
    else && SectionGoesOn(s, t, id, query)
         && (MayBeAsked(s, id) ==> Asked(s, t, Request(id, Section(query), None, Epoch(s, id)), false))
  }

  lemma PartAsks(s: State, id: Source, query: string)
    requires MayBeAsked(s, id)
    ensures Asked(s, SearchSectionStep(s, id, query, None), Request(id, Section(query), None, Epoch(s, id)), false)
  {
    AskedExactlyWhen(s, id);
  }

  lemma PartStarts(s: State, id: Source, query: string)
    ensures PartAnswered(s, SettleSectionStart(s, id, query), id, query)
  {
    LoadSessionAnswers(s, id, Some(query));
    SectionAnswers(s, id, query, None);
    if MayBeAsked(s, id) {
      PartAsks(s, id, query);
    }
  }

  /** The list of sources with the update in it: in place of the one it updates, or behind them all. */
  ghost predicate SourcesUpdated(sources: seq<SourceInfo>, after: seq<SourceInfo>, source: SourceInfo) {
    if exists known <- sources :: known.id == source.id
    then |after| == |sources|
         && forall i | 0 <= i < |sources| :: after[i] == if sources[i].id == source.id then source else sources[i]
    else after == sources + [source]
  }

  lemma {:induction false} FoundExactlyWhen(sources: seq<SourceInfo>, id: Source)
    ensures FindSource(sources, id).Some? <==> exists known <- sources :: known.id == id
    decreases |sources|
  {
    if sources != [] {
      FoundExactlyWhen(sources[1..], id);
      assert forall source :: source in sources <==> source == sources[0] || source in sources[1..];
    }
  }

  /** The first source in the list with this id. */
  ghost predicate IsFirst(sources: seq<SourceInfo>, id: Source, source: SourceInfo) {
    exists i :: 0 <= i < |sources| && sources[i] == source && source.id == id
                && forall j :: 0 <= j < i ==> sources[j].id != id
  }

  lemma {:induction false} FirstIsFound(sources: seq<SourceInfo>, id: Source, source: SourceInfo)
    ensures FindSource(sources, id) == Some(source) <==> IsFirst(sources, id, source)
    decreases |sources|
  {
    if sources != [] && sources[0].id == id {
      assert sources[0] == source ==> IsFirst(sources, id, source);
    } else if sources != [] {
      FirstIsFound(sources[1..], id, source);
      FirstBehind(sources, id, source);
    }
  }

  lemma FirstBehind(sources: seq<SourceInfo>, id: Source, source: SourceInfo)
    requires sources != [] && sources[0].id != id
    ensures IsFirst(sources, id, source) <==> IsFirst(sources[1..], id, source)
  {
    var rest := sources[1..];
    if IsFirst(sources, id, source) {
      var i :| 0 <= i < |sources| && sources[i] == source && source.id == id
               && forall j :: 0 <= j < i ==> sources[j].id != id;
      assert rest[i - 1] == source && forall j :: 0 <= j < i - 1 ==> rest[j].id == sources[j + 1].id;
    }
    if IsFirst(rest, id, source) {
      var i :| 0 <= i < |rest| && rest[i] == source && source.id == id
               && forall j :: 0 <= j < i ==> rest[j].id != id;
      assert sources[i + 1] == source && forall j :: 0 < j < i + 1 ==> sources[j].id == rest[j - 1].id;
    }
  }

  /** A source that is known, installed and switched on. */
  ghost predicate IsUsable(s: State, id: Source) {
    exists source :: IsFirst(s.sources, id, source) && source.enabled && source.installed
  }

  lemma UsableExactlyWhen(s: State, id: Source)
    ensures Usable(FindSource(s.sources, id)) <==> IsUsable(s, id)
  {
    forall source ensures FindSource(s.sources, id) == Some(source) <==> IsFirst(s.sources, id, source) {
      FirstIsFound(s.sources, id, source);
    }
    if Usable(FindSource(s.sources, id)) {
      assert IsFirst(s.sources, id, FindSource(s.sources, id).value);
    }
  }

  /** A known source goes away when it is no longer installed, is switched off, or may not be used any more. */
  ghost predicate IsGone(s: State, source: SourceInfo) {
    exists known :: IsFirst(s.sources, source.id, known)
      && (|| !source.installed || (known.enabled && !source.enabled)
          || source.state.Unavailable? || source.state.UpdateRequired?)
  }

  lemma GoneExactlyWhen(s: State, source: SourceInfo)
    ensures Goes(s, source) <==> IsGone(s, source)
  {
    var id := source.id;
    forall known ensures FindSource(s.sources, id) == Some(known) <==> IsFirst(s.sources, id, known) {
      FirstIsFound(s.sources, id, known);
    }
    if Goes(s, source) {
      assert IsFirst(s.sources, id, FindSource(s.sources, id).value);
    }
  }

  /** A sign-in is accepted where one is under way, at a source that is installed and switched on. */
  ghost predicate TakesSignIn(s: State, id: Source) {
    && (RecordOf(s, id).challenge != None || RecordOf(s, id).authStatus == Loading)
    && (exists i :: 0 <= i < |s.sources| && s.sources[i].id == id && s.sources[i].installed && s.sources[i].enabled)
  }

  lemma AcceptsExactlyWhen(s: State, id: Source)
    ensures Accepts(s, id) <==> TakesSignIn(s, id)
  {
    if Accepts(s, id) {
      var source :| source in s.sources && source.id == id && source.enabled && source.installed;
      var i :| 0 <= i < |s.sources| && s.sources[i] == source;
    }
  }

  lemma SourcesAnswer(s: State, source: SourceInfo)
    ensures var t := ApplySourceStep(s, source);
            SourcesUpdated(s.sources, t.sources, source) && t.view == s.view && t.active == s.active
                && t.global == s.global
    ensures forall other :: other != source.id ==> RecordOf(ApplySourceStep(s, source), other) == RecordOf(s, other)
  {
    FoundExactlyWhen(s.sources, source.id);
    ResetShows(s, source.id, EMPTY_BROWSE);
  }
}
