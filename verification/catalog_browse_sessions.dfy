/**
The sections of the global search and the sessions of their sources. A reset empties a source's record but leaves
its section, so a section's list can go on across resets: its pages come in the order of the sessions.
*/
module CatalogBrowseSessions {
  import opened Basics
  import opened CatalogBrowse
  import opened CatalogBrowseProofs
  import opened CatalogBrowseRuns
  import opened CatalogBrowseSections

  /** No page is of an earlier session than the pages before it, and none of a later one than `epoch`. */
  ghost predicate Aged(l: Listing, epoch: nat) {
    && (forall i, j | 0 <= i < j < |l.pages| :: l.pages[i].request.epoch <= l.pages[j].request.epoch)
    && (forall i | 0 <= i < |l.pages| :: l.pages[i].request.epoch <= epoch)
  }

  predicate IsSectionCall(call: Call) {
    call.PageCall? && call.request.feed.Section?
  }

  ghost predicate CallAged(s: State, call: Call)
    requires IsSectionCall(call)
  {
    Aged(call.before, call.request.epoch) && call.request.epoch <= Epoch(s, call.request.id)
  }

  ghost predicate SectionsAged(s: State) {
    && (forall id <- s.global.sections :: Aged(s.global.sections[id].listing, Epoch(s, id)))
    && (forall k <- s.calls :: IsSectionCall(s.calls[k]) ==> CallAged(s, s.calls[k]))
  }

  // ---------- steps that add no page and ask for none ----------

  /** The sections keep their lists or are new and empty, no section's page is newly asked for, and epochs only grow. */
  ghost predicate Frame(s: State, t: State) {
    && (forall id <- t.global.sections :: t.global.sections[id].listing.pages == []
          || (id in s.global.sections && t.global.sections[id].listing == s.global.sections[id].listing))
    && (forall k <- t.calls :: IsSectionCall(t.calls[k]) ==> k in s.calls && s.calls[k] == t.calls[k])
    && (forall id :: Epoch(s, id) <= Epoch(t, id))
  }

  lemma FrameAged(s: State, t: State)
    requires Frame(s, t) && SectionsAged(s)
    ensures SectionsAged(t)
  {
  }

  lemma FrameTrans(s: State, t: State, u: State)
    requires Frame(s, t) && Frame(t, u)
    ensures Frame(s, u)
  {
  }

  lemma FramePatch(s: State, id: Source, b: Browse)
    ensures Frame(s, Patch(s, id, b))
  {
  }

  lemma FrameBump(s: State, key: Key, b: Browse)
    ensures Frame(s, Patch(Bump(s, key), key.id, b))
  {
  }

  lemma FrameAdd(s: State, call: Call)
    requires !IsSectionCall(call)
    ensures Frame(s, AddCall(s, call))
  {
  }

  lemma FrameDrop(s: State, k: nat)
    ensures Frame(s, DropCall(s, k))
  {
  }

  lemma FrameArm(s: State, id: Source, challenge: Challenge, token: nat)
    ensures Frame(s, Arm(s, id, challenge, token))
  {
  }

  lemma FrameReset(s: State, id: Source, b: Browse)
    ensures Frame(s, Reset(s, id, b))
  {
  }

  lemma FrameFail(s: State, id: Source, slot: string, error: Error)
    ensures Frame(s, Fail(s, id, slot, error))
  {
    var was := RecordOf(s, id);
    var noted := Patch(s, id, was.(errors := was.errors[slot := error.message]));
    FramePatch(s, id, was.(errors := was.errors[slot := error.message]));
    FrameReset(noted, id, EMPTY_BROWSE.(sessionStatus := Ready, session := Some(Session(false, true))));
    if error.expired {
      FrameTrans(s, noted, Fail(s, id, slot, error));
    }
  }

  lemma FrameFailAfter(s: State, id: Source, b: Browse, slot: string, error: Error)
    ensures Frame(s, Fail(Patch(s, id, b), id, slot, error))
  {
    FramePatch(s, id, b);
    FrameFail(Patch(s, id, b), id, slot, error);
    FrameTrans(s, Patch(s, id, b), Fail(Patch(s, id, b), id, slot, error));
  }

  lemma FrameSend(s: State, id: Source, feed: Feed, more: bool, before: Listing, cursor: Option<string>, b: Browse)
    requires !feed.Section?
    ensures Frame(s, SendPage(s, id, feed, more, before, cursor, b))
  {
  }

  lemma FrameStatus(s: State, id: Source, query: string, status: LoadStatus)
    ensures Frame(s, SetSection(s, id, query, SectionOf(s, id).(status := status)))
  {
  }

  lemma {:induction false} FrameStarts(s: State, ids: seq<Source>, query: string)
    ensures Frame(s, AddStarts(s, ids, query))
    decreases |ids|
  {
    if ids != [] {
      var t := AddCall(s, SectionStart(ids[0], query));
      FrameAdd(s, SectionStart(ids[0], query));
      FrameStarts(t, ids[1..], query);
      FrameTrans(s, t, AddStarts(t, ids[1..], query));
    }
  }

  // ---------- actions ----------

  lemma FrameLiked(s: State, more: bool)
    ensures Frame(s, LoadLikedStep(s, more))
  {
    var was := RecordOf(s, ActiveId(s));
    FrameSend(s, ActiveId(s), Liked, more, was.liked, if more then was.liked.cursor else None,
              was.(likedStatus := Loading, likedLoadingMore := more));
  }

  lemma FramePlaylist(s: State, remote: Remote, more: bool)
    ensures Frame(s, OpenPlaylistStep(s, remote, more))
  {
    var id := ActiveId(s);
    var was := RecordOf(s, id);
    var before := if remote in was.details then was.details[remote] else NO_LISTING;
    FramePatch(s, id, Shown(was, remote, more));
    FrameSend(s, id, Playlist(remote), more, before, if more then before.cursor else None, Shown(was, remote, more));
  }

  lemma FrameClearSearch(s: State)
    ensures Frame(s, ClearSearchStep(s))
  {
    var id := ActiveId(s);
    FrameBump(s, Key(id, OnSearch), RecordOf(s, id).(searchQuery := "", search := NO_LISTING, searchStatus := Idle));
  }

  lemma FrameSearch(s: State, query: string, more: bool)
    ensures Frame(s, RunSearchStep(s, query, more))
  {
    var id := ActiveId(s);
    var was := RecordOf(s, id);
    FrameClearSearch(s);
    FrameSend(s, id, Search(Trim(query)), more, was.search, if more then was.search.cursor else None,
              Searching(was, Trim(query), more));
  }

  lemma FrameEverywhere(s: State, query: string)
    ensures Frame(s, SearchEverywhereStep(s, query))
  {
    var trimmed := Trim(query);
    var ids := Candidates(s.sources);
    var shown := s.(view := SearchView, active := None, top := EMPTY_BROWSE,
                    global := GlobalSearch(trimmed, map id | id in ids :: SectionState(Loading, NO_LISTING)));
    assert Frame(s, shown);
    FrameStarts(shown, ids, trimmed);
    FrameTrans(s, shown, AddStarts(shown, ids, trimmed));
  }

  lemma FrameSession(s: State, id: Source, thenSearch: Option<string>)
    ensures Frame(s, LoadSessionStep(s, id, thenSearch))
  {
  }

  lemma FrameCancel(s: State, id: Source, thenOpen: bool)
    ensures Frame(s, CancelSignInStep(s, id, thenOpen))
  {
    var cleared := ClearTimer(Bump(s, Key(id, OnAuth)), id);
    var record := RecordOf(s, id);
    assert Frame(s, cleared);
    if record.challenge.None? {
      var idle := Patch(cleared, id, record.(authStatus := Idle));
      FramePatch(cleared, id, record.(authStatus := Idle));
      FrameAdd(idle, OpenAfterCancel(id));
      FrameTrans(cleared, idle, AddCall(idle, OpenAfterCancel(id)));
    } else {
      FrameAdd(cleared, CancelCall(id, record.challenge.value, Generation(cleared, Key(id, OnAuth)), thenOpen));
    }
    FrameTrans(s, cleared, CancelSignInStep(s, id, thenOpen));
  }

  lemma FrameSignInError(s: State, id: Source, challenge: Challenge, message: string)
    ensures Frame(s, SetSignInErrorStep(s, id, challenge, message))
  {
  }

  lemma FrameApply(s: State, source: SourceInfo)
    ensures Frame(s, ApplySourceStep(s, source))
  {
    FrameReset(s, source.id, EMPTY_BROWSE);
  }

  lemma FrameAccept(s: State, id: Source, session: Session)
    ensures Frame(s, AcceptSignInStep(s, id, session))
  {
    FrameReset(s, id, EMPTY_BROWSE.(session := Some(session), sessionStatus := Ready));
  }

  lemma ListActionFrames(s: State, e: Event)
    requires e.LoadLiked? || e.OpenPlaylist? || e.ClosePlaylist? || e.RunSearch? || e.ClearSearch?
             || e.SearchEverywhere?
    ensures Frame(s, Step(s, e))
  {
    match e {
      case LoadLiked(more) => FrameLiked(s, more);
      case OpenPlaylist(remote, more) => FramePlaylist(s, remote, more);
      case ClosePlaylist =>
        FramePatch(s, ActiveId(s), RecordOf(s, ActiveId(s)).(detail := None, selected := None, detailStatus := Idle));
      case RunSearch(query, more) => FrameSearch(s, query, more);
      case ClearSearch => FrameClearSearch(s);
      case SearchEverywhere(query) => FrameEverywhere(s, query);
    }
  }

  lemma ActionFrames(s: State, e: Event)
    requires !e.Settle? && !e.SearchMoreIn?
    ensures Frame(s, Step(s, e))
  {
    match e {
      case ApplySource(source) => FrameApply(s, source);
      case AcceptSignIn(id, session) => FrameAccept(s, id, session);
      case LoadSession(id) => FrameSession(s, id, None);
      case OpenSignIn(id) => FrameCancel(s, id, true);
      case CancelSignIn(id) => FrameCancel(s, id, false);
      case SetSignInError(id, challenge, message) => FrameSignInError(s, id, challenge, message);
      case SignOut(id) => FrameAdd(s, SignOutCall(id));
      case ShowLibrary =>
      case ShowSource(_) =>
      case _ => ListActionFrames(s, e);
    }
  }

  // ---------- settlements ----------

  lemma FramePageOk(s: State, call: Call, page: Page)
    requires call.PageCall? && !IsSectionCall(call)
    ensures Frame(s, SettlePage(s, call, PageIs(page)))
  {
    if Current(s, KeyOf(call.request), call.token) {
      AnsweredShape(s, call, page);
      FramePatch(s, call.request.id, Answered(RecordOf(s, call.request.id), call.request.feed,
                                              Extend(call.before, call.more, Reply(call.request, page))));
    }
  }

  lemma FramePageFailed(s: State, call: Call, error: Error)
    requires call.PageCall? && !IsSectionCall(call)
    ensures Frame(s, SettlePage(s, call, Rejected(error)))
  {
    var id := call.request.id;
    var slot := match call.request.feed case Liked => "liked" case Playlist(_) => "playlist" case _ => "search";
    FrameFailAfter(s, id, Refused(RecordOf(s, id), call.request.feed), slot, error);
    FrameFail(s, id, slot, error);
  }

  lemma FrameSessionSettled(s: State, call: Call, outcome: Outcome)
    requires call.SessionCall? && Fits(call, outcome)
    ensures Frame(s, SettleSession(s, call, outcome))
  {
    var id := call.id;
    var settled := SettleSession(s, call.(thenSearch := None), outcome);
    assert Frame(s, settled) by {
      if outcome.Rejected? {
        FrameFailAfter(s, id, RecordOf(s, id).(sessionStatus := Errored), "session", outcome.error);
      }
    }
    if call.thenSearch.Some? {
      FrameAdd(settled, SectionStart(id, call.thenSearch.value));
      FrameTrans(s, settled, AddCall(settled, SectionStart(id, call.thenSearch.value)));
    }
  }

  lemma FrameCancelled(s: State, call: Call, outcome: Outcome)
    requires call.CancelCall? && Fits(call, outcome)
    ensures Frame(s, SettleCancel(s, call, outcome))
  {
    var settled := CancelSettled(s, call, outcome);
    assert Frame(s, settled) by {
      if outcome.Rejected? {
        FrameFail(s, call.id, "auth", outcome.error);
      }
    }
    FrameAdd(settled, OpenAfterCancel(call.id));
    FrameTrans(s, settled, AddCall(settled, OpenAfterCancel(call.id)));
  }

  lemma FrameStored(s: State, id: Source, b: Browse, challenge: Challenge, token: nat)
    ensures Frame(s, Arm(Patch(s, id, b), id, challenge, token))
  {
    FramePatch(s, id, b);
    FrameArm(Patch(s, id, b), id, challenge, token);
    FrameTrans(s, Patch(s, id, b), Arm(Patch(s, id, b), id, challenge, token));
  }

  lemma FrameOpened(s: State, call: Call, outcome: Outcome)
    requires call.OpenCall? && Fits(call, outcome)
    ensures Frame(s, SettleOpen(s, call, outcome))
  {
    var id := call.id;
    var was := RecordOf(s, id);
    match outcome {
      case ChallengeIs(challenge) =>
        FrameAdd(s, LateCancelCall(id, challenge));
        FrameStored(s, id, was.(challenge := Some(challenge), authStatus := Ready), challenge, call.token);
      case Rejected(error) => FrameFailAfter(s, id, was.(authStatus := Errored), "auth", error);
    }
  }

  lemma FramePolled(s: State, call: Call, outcome: Outcome)
    requires call.PollCall? && Fits(call, outcome)
    ensures Frame(s, SettlePoll(s, call, outcome))
  {
    var id := call.id;
    var was := RecordOf(s, id);
    match outcome {
      case PollIs(Complete(Some(session))) => FrameAccept(s, id, session);
      case PollIs(Complete(None)) =>
        FramePatch(s, id, was.(challenge := None, errors := was.errors["auth" := "complete"]));
      case PollIs(Pending) => FrameArm(s, id, call.challenge, call.token);
      case PollIs(Other(state)) => FramePatch(s, id, was.(challenge := None, errors := was.errors["auth" := state]));
      case Rejected(error) => FrameFailAfter(s, id, was.(challenge := None, authStatus := Idle), "auth", error);
    }
  }

  lemma FrameSignedOut(s: State, id: Source, outcome: Outcome)
    ensures Frame(s, SettleSignOut(s, id, outcome))
  {
    match outcome {
      case SessionIs(session) => FrameReset(s, id, EMPTY_BROWSE.(session := Some(session), sessionStatus := Ready));
      case Rejected(error) => FrameFail(s, id, "auth", error);
      case _ =>
    }
  }

  lemma FrameOpenAgain(s: State, id: Source)
    ensures Frame(s, SettleOpenAfterCancel(s, id))
  {
  }

  lemma FrameTimer(s: State, call: Call)
    requires call.PollTimer?
    ensures Frame(s, SettleTimer(s, call))
  {
  }

  /** The step asks for a section's page, or brings one. */
  predicate OfSections(s: State, e: Event) {
    || e.SearchMoreIn?
    || (e.Settle? && e.call in s.calls && (s.calls[e.call].SectionStart? || IsSectionCall(s.calls[e.call])))
  }

  lemma SettlementFrames(s: State, k: nat, outcome: Outcome)
    requires k in s.calls && Fits(s.calls[k], outcome) && !OfSections(s, Settle(k, outcome))
    ensures Frame(DropCall(s, k), SettleStep(s, k, outcome))
  {
    var rest := DropCall(s, k);
    var call := s.calls[k];
    match call {
      case PageCall(_, _, _, _) =>
        if outcome.PageIs? {
          FramePageOk(rest, call, outcome.page);
        } else {
          FramePageFailed(rest, call, outcome.error);
        }
      case SessionCall(_, _, _) => FrameSessionSettled(rest, call, outcome);
      case CancelCall(_, _, _, _) => FrameCancelled(rest, call, outcome);
      case OpenAfterCancel(id) => FrameOpenAgain(rest, id);
      case OpenCall(_, _) => FrameOpened(rest, call, outcome);
      case LateCancelCall(_, _) =>
      case PollTimer(_, _, _) => FrameTimer(rest, call);
      case PollCall(_, _, _) => FramePolled(rest, call, outcome);
      case SignOutCall(id) => FrameSignedOut(rest, id, outcome);
    }
  }

  lemma StepFrames(s: State, e: Event)
    requires Possible(s, e) && !OfSections(s, e)
    ensures Frame(s, Step(s, e))
  {
    if e.Settle? {
      FrameDrop(s, e.call);
      SettlementFrames(s, e.call, e.outcome);
      FrameTrans(s, DropCall(s, e.call), SettleStep(s, e.call, e.outcome));
    } else {
      ActionFrames(s, e);
    }
  }

  // ---------- steps that ask for a section's page or bring one ----------

  lemma SectionAskedAged(s: State, id: Source, query: string, cursor: Option<string>)
    requires SectionsAged(s)
    ensures SectionsAged(SearchSectionStep(s, id, query, cursor))
  {
    if MaySearch(FindSource(s.sources, id), RecordOf(s, id).session) {
      SearchSectionShape(s, id, query, cursor);
      var sent := AddCall(Bump(s, Key(id, OnSection)), SectionCall(s, id, query, cursor));
      AskAged(s, id, query, cursor);
      FrameStatus(sent, id, query, Loading);
      FrameAged(sent, SetSection(sent, id, query, SectionOf(sent, id).(status := Loading)));
    } else {
      FrameStatus(s, id, query, SignedOut);
      FrameAged(s, SearchSectionStep(s, id, query, cursor));
    }
  }

  lemma AskAged(s: State, id: Source, query: string, cursor: Option<string>)
    requires SectionsAged(s)
    ensures SectionsAged(AddCall(Bump(s, Key(id, OnSection)), SectionCall(s, id, query, cursor)))
  {
    var t := AddCall(Bump(s, Key(id, OnSection)), SectionCall(s, id, query, cursor));
    assert CallAged(t, SectionCall(s, id, query, cursor));
    forall k <- t.calls | IsSectionCall(t.calls[k]) ensures CallAged(t, t.calls[k]) {
      assert k == s.nextId || CallAged(s, s.calls[k]);
    }
  }

  lemma ExtendedAged(call: Call, page: Page)
    requires call.PageCall? && Aged(call.before, call.request.epoch)
    ensures Aged(Extend(call.before, call.more, Reply(call.request, page)), call.request.epoch)
  {
  }

  lemma SectionSetAged(s: State, id: Source, query: string, section: SectionState)
    requires SectionsAged(s) && Aged(section.listing, Epoch(s, id))
    ensures SectionsAged(SetSection(s, id, query, section))
  {
    var t := SetSection(s, id, query, section);
    forall k <- t.calls | IsSectionCall(t.calls[k]) ensures CallAged(t, t.calls[k]) {
      assert CallAged(s, s.calls[k]);
    }
  }

  lemma SectionBroughtAged(s: State, call: Call, page: Page)
    requires SectionsAged(s) && IsSectionCall(call) && CallAged(s, call)
    ensures SectionsAged(SettlePage(s, call, PageIs(page)))
  {
    var listing := Extend(call.before, call.more, Reply(call.request, page));
    ExtendedAged(call, page);
    assert Aged(listing, Epoch(s, call.request.id));
    SectionSetAged(s, call.request.id, call.request.feed.query, SectionState(Ready, listing));
  }

  lemma SectionRefusedFrames(s: State, call: Call, error: Error)
    requires IsSectionCall(call)
    ensures Frame(s, SettlePage(s, call, Rejected(error)))
  {
    var id := call.request.id;
    var shown := SetSection(s, id, call.request.feed.query, SectionOf(s, id).(status := Errored));
    FrameStatus(s, id, call.request.feed.query, Errored);
    FrameFail(shown, id, "search", error);
    FrameTrans(s, shown, Fail(shown, id, "search", error));
  }

  lemma SectionSettledAged(s: State, k: nat, outcome: Outcome)
    requires SectionsAged(s) && k in s.calls && Fits(s.calls[k], outcome) && OfSections(s, Settle(k, outcome))
    ensures SectionsAged(SettleStep(s, k, outcome))
  {
    var rest := DropCall(s, k);
    var call := s.calls[k];
    FrameDrop(s, k);
    FrameAged(s, rest);
    if call.SectionStart? {
      FrameSession(rest, call.id, Some(call.query));
      FrameAged(rest, LoadSessionStep(rest, call.id, Some(call.query)));
      SectionAskedAged(rest, call.id, call.query, None);
    } else if outcome.PageIs? {
      assert CallAged(s, call) && CallAged(rest, call);
      SectionBroughtAged(rest, call, outcome.page);
    } else {
      SectionRefusedFrames(rest, call, outcome.error);
      FrameAged(rest, SettlePage(rest, call, outcome));
    }
  }

  /** Every step keeps the pages of every section, and of those still to come, in the order of the sessions. */
  lemma StepAges(s: State, e: Event)
    requires SectionsAged(s) && Possible(s, e)
    ensures SectionsAged(Step(s, e))
  {
    if !OfSections(s, e) {
      StepFrames(s, e);
      FrameAged(s, Step(s, e));
    } else if e.Settle? {
      SectionSettledAged(s, e.call, e.outcome);
    } else if e.id in s.global.sections {
      SectionAskedAged(s, e.id, s.global.query, s.global.sections[e.id].listing.cursor);
    }
  }

  /** A list in the order of the sessions is all of one session exactly when its oldest page is. */
  lemma OldestDecides(l: Listing, epoch: nat)
    requires Aged(l, epoch) && l.pages != []
    ensures FromEpoch(l, epoch) <==> l.pages[0].request.epoch == epoch
  {
  }

  // ---------- when a page was asked for ----------

  /** The event asks for a section's page with this request. */
  predicate Asks(s: State, e: Event, r: Request)
    requires Possible(s, e)
  {
    var t := Step(s, e);
    r.feed.Section? && s.nextId in t.calls && t.calls[s.nextId].PageCall? && t.calls[s.nextId].request == r
  }

  /** A section's page is asked for in the session of the moment, and asking is no reset. */
  lemma AskedNow(s: State, e: Event, r: Request)
    requires Tokens(s) && Possible(s, e) && Asks(s, e, r)
    ensures r.epoch == Epoch(s, r.id) == Epoch(Step(s, e), r.id)
  {
    if !OfSections(s, e) {
      StepFrames(s, e);
    } else if e.Settle? {
      AskedBySettling(s, e.call, e.outcome, r);
    } else if e.id in s.global.sections {
      AskedHere(s, e.id, s.global.query, s.global.sections[e.id].listing.cursor, r);
    }
  }

  lemma AskedHere(s: State, id: Source, query: string, cursor: Option<string>, r: Request)
    requires s.nextId !in s.calls
    requires var t := SearchSectionStep(s, id, query, cursor);
             s.nextId in t.calls && t.calls[s.nextId].PageCall? && t.calls[s.nextId].request == r
    ensures r.epoch == Epoch(s, r.id) == Epoch(SearchSectionStep(s, id, query, cursor), r.id)
  {
    if MaySearch(FindSource(s.sources, id), RecordOf(s, id).session) {
      SearchSectionShape(s, id, query, cursor);
    }
  }

  lemma AskedBySettling(s: State, k: nat, outcome: Outcome, r: Request)
    requires Tokens(s) && k in s.calls && Fits(s.calls[k], outcome) && OfSections(s, Settle(k, outcome))
    requires Asks(s, Settle(k, outcome), r)
    ensures r.epoch == Epoch(s, r.id) == Epoch(SettleStep(s, k, outcome), r.id)
  {
    var rest := DropCall(s, k);
    var call := s.calls[k];
    if call.SectionStart? {
      if RecordOf(rest, call.id).sessionStatus != Idle {
        AskedHere(rest, call.id, call.query, None, r);
      }
    } else if outcome.Rejected? {
      SectionRefusedFrames(rest, call, outcome.error);
    }
  }
}
