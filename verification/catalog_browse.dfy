/**
The browsing half of the streaming catalog store: generation tokens, cursor paging of the liked
list, of the playlists and of the searches, and the sign-in poll loop.

`State` is the store together with the calls that are still out at the backend. `Step` is one
synchronous piece of the store's code: an action up to its first await, or what an action does
when one of its awaits settles. Nothing orders the settlements, so a sequence of events is an
arbitrary interleaving of requests, replies and failures.
*/
module CatalogBrowse {
  import opened Basics

  // ---------- values ----------

  type Source = string
  type Remote = string
  type Challenge = string

  datatype Track = Track(source: Source, remote: Remote)
  datatype Page = Page(tracks: seq<Track>, next: Option<string>)

  /** What a paged request asks for. */
  datatype Feed =
    | Liked
    | Playlist(remote: Remote)
    | Search(query: string)
    | Section(query: string)

  /** `epoch` counts the resets of the source that came before the request. */
  datatype Request = Request(id: Source, feed: Feed, cursor: Option<string>, epoch: nat)
  datatype Reply = Reply(request: Request, page: Page)

  /** A paged list of the store. `pages` is a history variable: no operation reads it. */
  datatype Listing = Listing(tracks: seq<Track>, cursor: Option<string>, pages: seq<Reply>)

  datatype LoadStatus = Idle | Loading | Ready | Errored | SignedOut
  datatype Session = Session(signedIn: bool, expired: bool)
  datatype Error = Error(message: string, expired: bool)

  /** The per-source record. Fields that only steer the screen are left out. */
  datatype Browse = Browse(
    session: Option<Session>, sessionStatus: LoadStatus,
    authStatus: LoadStatus, challenge: Option<Challenge>, signInError: Option<string>,
    liked: Listing, likedStatus: LoadStatus, likedLoadingMore: bool,
    details: map<Remote, Listing>, selected: Option<Remote>,
    detail: Option<Listing>, detailStatus: LoadStatus,
    search: Listing, searchQuery: string, searchStatus: LoadStatus,
    errors: map<string, string>)

  const NO_LISTING := Listing([], None, [])
  const EMPTY_BROWSE := Browse(
    None, Idle, Idle, None, None, NO_LISTING, Idle, false,
    map[], None, None, Idle, NO_LISTING, "", Idle, map[])

  datatype Operation = OnLiked | OnPlaylist(remote: Remote) | OnSearch | OnSession | OnAuth | OnSection

  /** A key of the generation map. Source ids hold no colon, so the pair stands for the joined string. */
  datatype Key = Key(id: Source, operation: Operation)

  datatype SourceState = 
    NotInstalled | Installing | Usual | Disabled | UpdateRequired | Unavailable | WaitingForIdle | Cancelling
  datatype SourceInfo = SourceInfo(
    id: Source, installed: bool, enabled: bool, loaded: bool, state: SourceState,
    canSearch: bool, searchNeedsSession: bool)

  datatype View = Library | Streaming | SearchView
  datatype SectionState = SectionState(status: LoadStatus, listing: Listing)
  datatype GlobalSearch = GlobalSearch(query: string, sections: map<Source, SectionState>)

  /** An await that has not settled or a timer that has not fired, with what its closure captured. */
  datatype Call =
    | PageCall(request: Request, more: bool, before: Listing, token: nat)
    | SessionCall(id: Source, token: nat, thenSearch: Option<string>)
    | SectionStart(id: Source, query: string)
    | CancelCall(id: Source, challenge: Challenge, token: nat, thenOpen: bool)
    | OpenAfterCancel(id: Source)
    | OpenCall(id: Source, token: nat)
    | LateCancelCall(id: Source, challenge: Challenge)
    | PollTimer(id: Source, challenge: Challenge, token: nat)
    | PollCall(id: Source, challenge: Challenge, token: nat)
    | SignOutCall(id: Source)

  datatype State = State(
    generations: map<Key, nat>,
    records: map<Source, Browse>,
    view: View, active: Option<Source>, top: Browse,
    sources: seq<SourceInfo>,
    global: GlobalSearch,
    authTimers: map<Source, nat>,
    calls: map<nat, Call>,
    nextId: nat,
    epochs: map<Source, nat>)

  const INITIAL := State(
    map[], map[], Library, None, EMPTY_BROWSE, [], GlobalSearch("", map[]), map[], map[], 0, map[])

  datatype PollResult = Complete(session: Option<Session>) | Pending | Other(state: string)

  /** How an await settles. */
  datatype Outcome =
    | PageIs(page: Page)
    | SessionIs(session: Session)
    | ChallengeIs(challenge: Challenge)
    | PollIs(result: PollResult)
    | Done
    | Rejected(error: Error)

  datatype Event =
    | ShowLibrary
    | ShowSource(id: Source)
    | ApplySource(source: SourceInfo)
    | LoadLiked(more: bool)
    | OpenPlaylist(remote: Remote, more: bool)
    | ClosePlaylist
    | RunSearch(query: string, more: bool)
    | ClearSearch
    | SearchEverywhere(query: string)
    | SearchMoreIn(id: Source)
    | LoadSession(id: Source)
    | OpenSignIn(id: Source)
    | CancelSignIn(id: Source)
    | AcceptSignIn(id: Source, session: Session)
    | SetSignInError(id: Source, challenge: Challenge, message: string)
    | SignOut(id: Source)
    | Settle(call: nat, outcome: Outcome)

  // ---------- helpers of the store ----------

  /** A cursor asks for more only when it is a non-empty string. */
  predicate Truthy(cursor: Option<string>) {
    cursor.Some? && cursor.value != ""
  }

  function RecordOf(s: State, id: Source): Browse {
    if id in s.records then s.records[id] else EMPTY_BROWSE
  }

  function ActiveId(s: State): Source {
    if s.active.Some? then s.active.value else ""
  }

  function Generation(s: State, key: Key): nat {
    if key in s.generations then s.generations[key] else 0
  }

  function Epoch(s: State, id: Source): nat {
    if id in s.epochs then s.epochs[id] else 0
  }

  predicate Current(s: State, key: Key, token: nat) {
    key in s.generations && s.generations[key] == token
  }

  function OperationOf(feed: Feed): Operation {
    match feed
    case Liked => OnLiked
    case Playlist(remote) => OnPlaylist(remote)
    case Search(_) => OnSearch
    case Section(_) => OnSection
  }

  function KeyOf(request: Request): Key {
    Key(request.id, OperationOf(request.feed))
  }

  function Bump(s: State, key: Key): State {
    s.(generations := s.generations[key := Generation(s, key) + 1])
  }

  function Patch(s: State, id: Source, record: Browse): State {
    s.(records := s.records[id := record],
       top := if s.view != Library && ActiveId(s) == id then record else s.top)
  }

  function AddCall(s: State, call: Call): State {
    s.(calls := s.calls[s.nextId := call], nextId := s.nextId + 1)
  }

  function DropCall(s: State, call: nat): State {
    s.(calls := s.calls - {call})
  }

  /** `clearTimeout` of the source's last handle; a handle that already fired clears nothing. */
  function ClearTimer(s: State, id: Source): State {
    if id in s.authTimers then DropCall(s, s.authTimers[id]) else s
  }

  function ForgetTimer(s: State, id: Source): State {
    ClearTimer(s, id).(authTimers := s.authTimers - {id})
  }

  /** A timer's handle is its call number, which no other call ever gets. */
  function Arm(s: State, id: Source, challenge: Challenge, token: nat): State {
    AddCall(s, PollTimer(id, challenge, token)).(authTimers := s.authTimers[id := s.nextId])
  }

  function Invalidate(s: State, id: Source): State {
    ForgetTimer(s, id).(
      generations := map key | key in s.generations ::
        if key.id == id then s.generations[key] + 1 else s.generations[key],
      epochs := s.epochs[id := Epoch(s, id) + 1])
  }

  /** Invalidation is always followed at once by a fresh record. */
  function Reset(s: State, id: Source, record: Browse): State {
    Patch(Invalidate(s, id), id, record)
  }

  function Fail(s: State, id: Source, slot: string, error: Error): State {
    var was := RecordOf(s, id);
    var noted := Patch(s, id, was.(errors := was.errors[slot := error.message]));
    if error.expired
    then Reset(noted, id, EMPTY_BROWSE.(sessionStatus := Ready, session := Some(Session(false, true))))
    else noted
  }

  function Extend(before: Listing, more: bool, reply: Reply): Listing {
    if more
    then Listing(before.tracks + reply.page.tracks, reply.page.next, before.pages + [reply])
    else Listing(reply.page.tracks, reply.page.next, [reply])
  }

  function FindSource(sources: seq<SourceInfo>, id: Source): Option<SourceInfo> {
    if sources == [] then None
    else if sources[0].id == id then Some(sources[0])
    else FindSource(sources[1..], id)
  }

  predicate SourceReady(source: SourceInfo) {
    && source.installed && source.enabled && source.loaded
    && source.state !in {NotInstalled, Disabled, UpdateRequired, Unavailable, Cancelling}
  }

  predicate MaySearch(source: Option<SourceInfo>, session: Option<Session>) {
    && source.Some? && SourceReady(source.value) && source.value.canSearch
    && (source.value.searchNeedsSession ==>
          session.Some? && session.value.signedIn && !session.value.expired)
  }

  function SetSection(s: State, id: Source, query: string, section: SectionState): State {
    if s.global.query == query && id in s.global.sections
    then s.(global := s.global.(sections := s.global.sections[id := section]))
    else s
  }

  function SectionOf(s: State, id: Source): SectionState {
    if id in s.global.sections then s.global.sections[id] else SectionState(Idle, NO_LISTING)
  }

  // ---------- actions up to their first await ----------

  /** Takes a new token for the feed, patches the record and sends the request. */
  function SendPage(s: State, id: Source, feed: Feed, more: bool, before: Listing, cursor: Option<string>,
                    record: Browse): State
  {
    var key := Key(id, OperationOf(feed));
    var sent := Patch(Bump(s, key), id, record);
    AddCall(sent, PageCall(Request(id, feed, cursor, Epoch(s, id)), more, before, Generation(sent, key)))
  }

  function LoadLikedStep(s: State, more: bool): State {
    var id := ActiveId(s);
    var was := RecordOf(s, id);
    if was.likedStatus == Loading || (more && !Truthy(was.liked.cursor)) then s
    else SendPage(s, id, Liked, more, was.liked, if more then was.liked.cursor else None,
                  was.(likedStatus := Loading, likedLoadingMore := more))
  }

  function OpenPlaylistStep(s: State, remote: Remote, more: bool): State {
    var id := ActiveId(s);
    var was := RecordOf(s, id);
    var cached := if remote in was.details then Some(was.details[remote]) else None;
    if more && !(cached.Some? && Truthy(cached.value.cursor)) then s
    else
      var shown := was.(
        selected := Some(remote), detail := cached,
        detailStatus := if cached.Some? && !more then Ready else Loading);
      if cached.Some? && !more && was.detailStatus != Errored then Patch(s, id, shown)
      else
        var before := if cached.Some? then cached.value else NO_LISTING;
        SendPage(s, id, Playlist(remote), more, before, if more then before.cursor else None, shown)
  }

  function ClosePlaylistStep(s: State): State {
    var was := RecordOf(s, ActiveId(s));
    Patch(s, ActiveId(s), was.(detail := None, selected := None, detailStatus := Idle))
  }

  function ClearSearchStep(s: State): State {
    var id := ActiveId(s);
    var was := RecordOf(s, id);
    Patch(Bump(s, Key(id, OnSearch)), id, was.(searchQuery := "", search := NO_LISTING, searchStatus := Idle))
  }

  function RunSearchStep(s: State, query: string, more: bool): State {
    var id := ActiveId(s);
    var was := RecordOf(s, id);
    var trimmed := Trim(query);
    if trimmed == "" then ClearSearchStep(s)
    else if more && (!Truthy(was.search.cursor) || was.searchStatus == Loading) then s
    else SendPage(s, id, Search(trimmed), more, was.search, if more then was.search.cursor else None,
                  was.(searchQuery := trimmed, searchStatus := Loading,
                       search := if more then was.search else NO_LISTING))
  }

  function Candidates(sources: seq<SourceInfo>): seq<Source> {
    if sources == [] then []
    else (if SourceReady(sources[0]) && sources[0].canSearch then [sources[0].id] else [])
         + Candidates(sources[1..])
  }

  function AddStarts(s: State, ids: seq<Source>, query: string): State
    decreases |ids|
  {
    if ids == [] then s else AddStarts(AddCall(s, SectionStart(ids[0], query)), ids[1..], query)
  }

  /** Each candidate's part starts in a step of its own, at any later time. */
  function SearchEverywhereStep(s: State, query: string): State {
    var trimmed := Trim(query);
    if trimmed == "" then s
    else
      var ids := Candidates(s.sources);
      AddStarts(s.(view := SearchView, active := None, top := EMPTY_BROWSE,
                   global := GlobalSearch(trimmed, map id | id in ids :: SectionState(Loading, NO_LISTING))),
                ids, trimmed)
  }

  function SearchSectionStep(s: State, id: Source, query: string, cursor: Option<string>): State {
    var section := SectionOf(s, id);
    if !MaySearch(FindSource(s.sources, id), RecordOf(s, id).session)
    then SetSection(s, id, query, section.(status := SignedOut))
    else
      var key := Key(id, OnSection);
      var bumped := Bump(s, key);
      AddCall(SetSection(bumped, id, query, section.(status := Loading)),
              PageCall(Request(id, Section(query), cursor, Epoch(s, id)), Truthy(cursor), section.listing,
                       Generation(bumped, key)))
  }

  function SearchMoreInStep(s: State, id: Source): State {
    if id !in s.global.sections then s
    else
      var section := s.global.sections[id];
      if section.status == Loading || (!Truthy(section.listing.cursor) && section.status != Errored) then s
      else SearchSectionStep(s, id, s.global.query, section.listing.cursor)
  }

  function LoadSessionStep(s: State, id: Source, thenSearch: Option<string>): State {
    var key := Key(id, OnSession);
    var sent := Patch(Bump(s, key), id, RecordOf(s, id).(sessionStatus := Loading));
    AddCall(sent, SessionCall(id, Generation(sent, key), thenSearch))
  }

  function ContinueOpen(s: State, id: Source, thenOpen: bool): State {
    if thenOpen then AddCall(s, OpenAfterCancel(id)) else s
  }

  function CancelSignInStep(s: State, id: Source, thenOpen: bool): State {
    var key := Key(id, OnAuth);
    var cleared := ClearTimer(Bump(s, key), id);
    var record := RecordOf(s, id);
    if record.challenge.None?
    then ContinueOpen(Patch(cleared, id, record.(authStatus := Idle)), id, thenOpen)
    else AddCall(cleared, CancelCall(id, record.challenge.value, Generation(cleared, key), thenOpen))
  }

  predicate Usable(source: Option<SourceInfo>) {
    source.Some? && source.value.enabled && source.value.installed
  }

  function AcceptSignInStep(s: State, id: Source, session: Session): State {
    var record := RecordOf(s, id);
    if record.challenge.None? && record.authStatus != Loading then s
    else if !(exists source <- s.sources :: source.id == id && source.enabled && source.installed) then s
    else Reset(s, id, EMPTY_BROWSE.(session := Some(session), sessionStatus := Ready))
  }

  function SetSignInErrorStep(s: State, id: Source, challenge: Challenge, message: string): State {
    var record := RecordOf(s, id);
    if !Usable(FindSource(s.sources, id)) || record.challenge != Some(challenge) then s
    else Patch(ForgetTimer(Bump(s, Key(id, OnAuth)), id), id,
               record.(signInError := Some(message), challenge := None, authStatus := Errored))
  }

  function ApplySourceStep(s: State, source: SourceInfo): State {
    var previous := FindSource(s.sources, source.id);
    var gone := && previous.Some?
                && (|| !source.installed || (!source.enabled && previous.value.enabled)
                    || source.state == Unavailable || source.state == UpdateRequired);
    var cleared := if gone then Reset(s, source.id, EMPTY_BROWSE) else s;
    cleared.(sources :=
      if previous.Some?
      then seq(|s.sources|, i requires 0 <= i < |s.sources| =>
             if s.sources[i].id == source.id then source else s.sources[i])
      else s.sources + [source])
  }

  // ---------- what happens when an await settles ----------

  function SettlePage(s: State, call: Call, outcome: Outcome): State
    requires call.PageCall?
  {
    var id := call.request.id;
    if !Current(s, KeyOf(call.request), call.token) then s
    else
      var was := RecordOf(s, id);
      match outcome
      case PageIs(page) =>
        var listing := Extend(call.before, call.more, Reply(call.request, page));
        (match call.request.feed
         case Liked => Patch(s, id, was.(liked := listing, likedStatus := Ready, likedLoadingMore := false))
         case Playlist(remote) =>
           var kept := was.(details := was.details[remote := listing]);
           Patch(s, id, if was.selected == Some(remote) then kept.(detail := Some(listing), detailStatus := Ready)
                        else kept)
         case Search(_) => Patch(s, id, was.(search := listing, searchStatus := Ready))
         case Section(query) => SetSection(s, id, query, SectionState(Ready, listing)))
      case Rejected(error) =>
        (match call.request.feed
         case Liked =>
           Fail(Patch(s, id, was.(likedStatus := Errored, likedLoadingMore := false)), id, "liked", error)
         case Playlist(remote) =>
           Fail(if was.selected == Some(remote) then Patch(s, id, was.(detailStatus := Errored)) else s,
                id, "playlist", error)
         case Search(_) => Fail(Patch(s, id, was.(searchStatus := Errored)), id, "search", error)
         case Section(query) =>
           Fail(SetSection(s, id, query, SectionOf(s, id).(status := Errored)), id, "search", error))
      case _ => s
  }

  function SettleSession(s: State, call: Call, outcome: Outcome): State
    requires call.SessionCall?
  {
    var id := call.id;
    var was := RecordOf(s, id);
    var settled :=
      if !Current(s, Key(id, OnSession), call.token) then s
      else match outcome
        case SessionIs(session) => Patch(s, id, was.(session := Some(session), sessionStatus := Ready))
        case Rejected(error) => Fail(Patch(s, id, was.(sessionStatus := Errored)), id, "session", error)
        case _ => s;
    if call.thenSearch.Some? then AddCall(settled, SectionStart(id, call.thenSearch.value)) else settled
  }

  function SettleSectionStart(s: State, id: Source, query: string): State {
    if RecordOf(s, id).sessionStatus == Idle then LoadSessionStep(s, id, Some(query))
    else SearchSectionStep(s, id, query, None)
  }

  function CancelSettled(s: State, call: Call, outcome: Outcome): State
    requires call.CancelCall?
  {
    var id := call.id;
    var was := RecordOf(s, id);
    if !Current(s, Key(id, OnAuth), call.token) || was.challenge != Some(call.challenge) then s
    else match outcome
      case Done => Patch(s, id, was.(challenge := None, authStatus := Idle))
      case Rejected(error) => Fail(s, id, "auth", error)
      case _ => s
  }

  function SettleCancel(s: State, call: Call, outcome: Outcome): State
    requires call.CancelCall?
  {
    ContinueOpen(CancelSettled(s, call, outcome), call.id, call.thenOpen)
  }

  function SettleOpenAfterCancel(s: State, id: Source): State {
    var was := RecordOf(s, id);
    if was.challenge.Some? then s
    else
      var key := Key(id, OnAuth);
      var sent := Patch(Bump(s, key), id,
                        was.(authStatus := Loading, signInError := None, errors := was.errors - {"auth"}));
      AddCall(sent, OpenCall(id, Generation(sent, key)))
  }

  function SettleOpen(s: State, call: Call, outcome: Outcome): State
    requires call.OpenCall?
  {
    var id := call.id;
    var was := RecordOf(s, id);
    match outcome
    case ChallengeIs(challenge) =>
      if !Current(s, Key(id, OnAuth), call.token) then AddCall(s, LateCancelCall(id, challenge))
      else Arm(Patch(s, id, was.(challenge := Some(challenge), authStatus := Ready)), id, challenge, call.token)
    case Rejected(error) =>
      if !Current(s, Key(id, OnAuth), call.token) then s
      else Fail(Patch(s, id, was.(authStatus := Errored)), id, "auth", error)
    case _ => s
  }

  function SettleTimer(s: State, call: Call): State
    requires call.PollTimer?
  {
    if !Current(s, Key(call.id, OnAuth), call.token) || RecordOf(s, call.id).challenge != Some(call.challenge) then s
    else AddCall(s, PollCall(call.id, call.challenge, call.token))
  }

  function SettlePoll(s: State, call: Call, outcome: Outcome): State
    requires call.PollCall?
  {
    var id := call.id;
    var was := RecordOf(s, id);
    if !Current(s, Key(id, OnAuth), call.token) then s
    else match outcome
      case PollIs(Complete(Some(session))) => AcceptSignInStep(s, id, session)
      case PollIs(Complete(None)) => Patch(s, id, was.(challenge := None, errors := was.errors["auth" := "complete"]))
      case PollIs(Pending) => Arm(s, id, call.challenge, call.token)
      case PollIs(Other(state)) => Patch(s, id, was.(challenge := None, errors := was.errors["auth" := state]))
      case Rejected(error) => Fail(Patch(s, id, was.(challenge := None, authStatus := Idle)), id, "auth", error)
      case _ => s
  }

  function SettleSignOut(s: State, id: Source, outcome: Outcome): State {
    match outcome
    case SessionIs(session) => Reset(s, id, EMPTY_BROWSE.(session := Some(session), sessionStatus := Ready))
    case Rejected(error) => Fail(s, id, "auth", error)
    case _ => s
  }

  function SettleStep(s: State, k: nat, outcome: Outcome): State
    requires k in s.calls
  {
    var rest := DropCall(s, k);
    match s.calls[k]
    case PageCall(_, _, _, _) => SettlePage(rest, s.calls[k], outcome)
    case SessionCall(_, _, _) => SettleSession(rest, s.calls[k], outcome)
    case SectionStart(id, query) => SettleSectionStart(rest, id, query)
    case CancelCall(_, _, _, _) => SettleCancel(rest, s.calls[k], outcome)
    case OpenAfterCancel(id) => SettleOpenAfterCancel(rest, id)
    case OpenCall(_, _) => SettleOpen(rest, s.calls[k], outcome)
    case LateCancelCall(_, _) => rest
    case PollTimer(_, _, _) => SettleTimer(rest, s.calls[k])
    case PollCall(_, _, _) => SettlePoll(rest, s.calls[k], outcome)
    case SignOutCall(id) => SettleSignOut(rest, id, outcome)
  }

  // ---------- steps and runs ----------

  /** A backend call settles with a value of its own type or with an error; a continuation just runs. */
  predicate Fits(call: Call, outcome: Outcome) {
    match call
    case PageCall(_, _, _, _) => outcome.PageIs? || outcome.Rejected?
    case SessionCall(_, _, _) => outcome.SessionIs? || outcome.Rejected?
    case SectionStart(_, _) => outcome.Done?
    case CancelCall(_, _, _, _) => outcome.Done? || outcome.Rejected?
    case OpenAfterCancel(_) => outcome.Done?
    case OpenCall(_, _) => outcome.ChallengeIs? || outcome.Rejected?
    case LateCancelCall(_, _) => outcome.Done? || outcome.Rejected?
    case PollTimer(_, _, _) => outcome.Done?
    case PollCall(_, _, _) => outcome.PollIs? || outcome.Rejected?
    case SignOutCall(_) => outcome.SessionIs? || outcome.Rejected?
  }

  predicate Possible(s: State, e: Event) {
    match e
    case Settle(k, outcome) => k in s.calls && Fits(s.calls[k], outcome)
    case _ => true
  }

  function Step(s: State, e: Event): State
    requires Possible(s, e)
  {
    match e
    case ShowLibrary => s.(view := Library, active := None, top := EMPTY_BROWSE)
    case ShowSource(id) => s.(view := Streaming, active := Some(id), top := RecordOf(s, id))
    case ApplySource(source) => ApplySourceStep(s, source)
    case LoadLiked(more) => LoadLikedStep(s, more)
    case OpenPlaylist(remote, more) => OpenPlaylistStep(s, remote, more)
    case ClosePlaylist => ClosePlaylistStep(s)
    case RunSearch(query, more) => RunSearchStep(s, query, more)
    case ClearSearch => ClearSearchStep(s)
    case SearchEverywhere(query) => SearchEverywhereStep(s, query)
    case SearchMoreIn(id) => SearchMoreInStep(s, id)
    case LoadSession(id) => LoadSessionStep(s, id, None)
    case OpenSignIn(id) => CancelSignInStep(s, id, true)
    case CancelSignIn(id) => CancelSignInStep(s, id, false)
    case AcceptSignIn(id, session) => AcceptSignInStep(s, id, session)
    case SetSignInError(id, challenge, message) => SetSignInErrorStep(s, id, challenge, message)
    case SignOut(id) => AddCall(s, SignOutCall(id))
    case Settle(k, outcome) => SettleStep(s, k, outcome)
  }
}
