/** What every interleaving of the browsing store keeps. */
module CatalogBrowseProofs {
  import opened Basics
  import opened CatalogBrowse

  // ---------- who holds which token ----------

  /** The source a call works for. */
  function IdOf(call: Call): Source {
    if call.PageCall? then call.request.id else call.id
  }

  function Held(call: Call): Option<Key> {
    match call
    case PageCall(request, _, _, _) => Some(KeyOf(request))
    case SessionCall(id, _, _) => Some(Key(id, OnSession))
    case CancelCall(id, _, _, _) => Some(Key(id, OnAuth))
    case OpenCall(id, _) => Some(Key(id, OnAuth))
    case PollTimer(id, _, _) => Some(Key(id, OnAuth))
    case PollCall(id, _, _) => Some(Key(id, OnAuth))
    case _ => None
  }

  function TokenOf(call: Call): nat
    requires Held(call).Some?
  {
    match call
    case PageCall(_, _, _, token) => token
    case SessionCall(_, token, _) => token
    case CancelCall(_, _, token, _) => token
    case OpenCall(_, token) => token
    case PollTimer(_, _, token) => token
    case PollCall(_, _, token) => token
  }

  /** Call `k` is out and is the newest holder of `key`. */
  predicate Live(s: State, key: Key, k: nat) {
    k in s.calls && Held(s.calls[k]) == Some(key) && Current(s, key, TokenOf(s.calls[k]))
  }

  ghost predicate Tokens(s: State) {
    && (forall k <- s.calls :: k < s.nextId)
    && (forall k <- s.calls :: Held(s.calls[k]).Some? ==>
          && Held(s.calls[k]).value in s.generations
          && TokenOf(s.calls[k]) <= s.generations[Held(s.calls[k]).value])
    && (forall j <- s.calls, k <- s.calls ::
          j != k && Held(s.calls[j]).Some? && Held(s.calls[j]) == Held(s.calls[k]) ==>
          TokenOf(s.calls[j]) != TokenOf(s.calls[k]))
    && (forall id <- s.authTimers :: s.authTimers[id] < s.nextId)
    && (forall id <- s.authTimers :: s.authTimers[id] in s.calls ==>
          s.calls[s.authTimers[id]].PollTimer? && s.calls[s.authTimers[id]].id == id)
  }

  // ---------- lists are chains of pages ----------

  function Concat(pages: seq<Reply>): seq<Track> {
    if pages == [] then [] else Concat(pages[..|pages| - 1]) + pages[|pages| - 1].page.tracks
  }

  function End(pages: seq<Reply>): Option<string> {
    if pages == [] then None else pages[|pages| - 1].page.next
  }

  predicate GoesOn(pages: seq<Reply>, i: nat)
    requires 0 < i < |pages|
  {
    Truthy(pages[i - 1].page.next) && pages[i].request.cursor == pages[i - 1].page.next
  }

  /** The same list of the store: searches share theirs, whatever they ask for. */
  predicate SameList(feed: Feed, other: Feed) {
    if feed.Search? then other.Search? else feed == other
  }

  /** Each page answers a request for this list with the cursor where the page before it stopped. */
  ghost predicate Linked(pages: seq<Reply>, id: Source, feed: Feed) {
    && (forall i | 0 <= i < |pages| :: pages[i].request.id == id && SameList(feed, pages[i].request.feed))
    && (pages != [] ==>
          pages[0].request.cursor == None || (feed.Section? && pages[0].request.cursor == Some("")))
    && (forall i | 0 < i < |pages| :: GoesOn(pages, i))
  }

  ghost predicate Chain(l: Listing, id: Source, feed: Feed) {
    Linked(l.pages, id, feed) && l.tracks == Concat(l.pages) && l.cursor == End(l.pages)
  }

  ghost predicate FromEpoch(l: Listing, epoch: nat) {
    forall i | 0 <= i < |l.pages| :: l.pages[i].request.epoch == epoch
  }

  ghost predicate ListingOk(l: Listing, id: Source, feed: Feed, epoch: nat) {
    Chain(l, id, feed) && FromEpoch(l, epoch)
  }

  /** What a page call captured fits the feed and cursor it asks for. */
  ghost predicate PageCallOk(call: Call)
    requires call.PageCall?
  {
    var r := call.request;
    && (call.more ==> Truthy(r.cursor) && r.cursor == call.before.cursor && Chain(call.before, r.id, r.feed))
    && (!call.more ==> r.cursor == None || (r.feed.Section? && r.cursor == Some("")))
    && (call.more && !r.feed.Section? ==> FromEpoch(call.before, r.epoch))
  }

  // ---------- one source's record ----------

  function Opened(b: Browse): Option<Listing> {
    if b.selected.Some? && b.selected.value in b.details then Some(b.details[b.selected.value]) else None
  }

  ghost predicate ListingsOk(s: State, id: Source, b: Browse) {
    && ListingOk(b.liked, id, Liked, Epoch(s, id))
    && (forall r <- b.details :: ListingOk(b.details[r], id, Playlist(r), Epoch(s, id)))
    && ListingOk(b.search, id, Search(b.searchQuery), Epoch(s, id))
    && b.detail == Opened(b)
  }

  function ListingIn(b: Browse, feed: Feed): Option<Listing> {
    match feed
    case Liked => Some(b.liked)
    case Playlist(remote) => if remote in b.details then Some(b.details[remote]) else None
    case Search(_) => Some(b.search)
    case Section(_) => None
  }

  /** The newest request of each feed of the source belongs to this record and goes on from its list. */
  ghost predicate RequestsOk(s: State, id: Source, b: Browse) {
    forall k <- s.calls :: s.calls[k].PageCall? && IdOf(s.calls[k]) == id && Live(s, KeyOf(s.calls[k].request), k) ==>
      && s.calls[k].request.epoch == Epoch(s, id)
      && (s.calls[k].request.feed.Search? ==> s.calls[k].request.feed.query == b.searchQuery)
      && (s.calls[k].more && !s.calls[k].request.feed.Section? ==>
            ListingIn(b, s.calls[k].request.feed) == Some(s.calls[k].before))
  }

  /** The record shows a spinner for `key`. */
  predicate Spins(id: Source, b: Browse, key: Key) {
    || (key == Key(id, OnLiked) && b.likedStatus == Loading)
    || (key == Key(id, OnSearch) && b.searchStatus == Loading)
    || (key == Key(id, OnSession) && b.sessionStatus == Loading)
    || (key == Key(id, OnAuth) && b.authStatus == Loading)
    || (key.id == id && key.operation.OnPlaylist? && b.detailStatus == Loading
        && b.selected == Some(key.operation.remote))
  }

  /** A spinner for `key` is owed an answer: a live call is out, and for sign-in it is the opening one. */
  ghost predicate Awaited(s: State, key: Key) {
    exists k :: Live(s, key, k) && (key.operation.OnAuth? ==> s.calls[k].OpenCall?)
  }

  /** Every spinner but the one for `skip` is owed an answer. */
  ghost predicate LoadingOk(s: State, id: Source, b: Browse, skip: Option<Key>) {
    && (b.detailStatus == Loading ==> b.selected.Some?)
    && (forall key :: Spins(id, b, key) && skip != Some(key) ==> Awaited(s, key))
  }

  /** Every armed timer is live and is the one `authTimers` can clear; a live loop polls the stored challenge. */
  ghost predicate AuthOk(s: State, id: Source, b: Browse) {
    && (forall k <- s.calls :: s.calls[k].PollTimer? && s.calls[k].id == id ==>
          && id in s.authTimers && s.authTimers[id] == k
          && Live(s, Key(id, OnAuth), k)
          && b.challenge == Some(s.calls[k].challenge))
    && (forall k <- s.calls :: s.calls[k].PollCall? && s.calls[k].id == id && Live(s, Key(id, OnAuth), k) ==>
          b.challenge == Some(s.calls[k].challenge))
    && (forall k <- s.calls :: s.calls[k].OpenCall? && s.calls[k].id == id && Live(s, Key(id, OnAuth), k) ==>
          b.challenge == None)
  }

  ghost predicate RecordOk(s: State, id: Source, b: Browse, skip: Option<Key> := None) {
    ListingsOk(s, id, b) && RequestsOk(s, id, b) && LoadingOk(s, id, b, skip) && AuthOk(s, id, b)
  }

  // ---------- the whole store ----------

  ghost predicate PageCallsOk(s: State) {
    forall k <- s.calls :: s.calls[k].PageCall? ==> PageCallOk(s.calls[k])
  }

  ghost predicate SectionsOk(s: State) {
    forall id <- s.global.sections :: Chain(s.global.sections[id].listing, id, Section(s.global.query))
  }

  predicate TopOk(s: State) {
    && (s.view == Library ==> s.active == None && s.top == EMPTY_BROWSE)
    && (s.view == SearchView ==> s.active == None)
    && (s.view == Streaming ==> s.active.Some? && s.top == RecordOf(s, s.active.value))
  }

  ghost predicate StoreOk(s: State) {
    Tokens(s) && PageCallsOk(s) && SectionsOk(s) && TopOk(s)
  }

  /** The invariant; `skip` names a spinner whose answer is being handled right now. */
  ghost predicate InvBut(s: State, skip: Option<Key>) {
    StoreOk(s) && forall id :: RecordOk(s, id, RecordOf(s, id), skip)
  }

  ghost predicate Inv(s: State) {
    InvBut(s, None)
  }

  // ---------- what one source cannot see ----------

  /** `s` and `t` look the same to source `id`. */
  ghost predicate Alike(s: State, t: State, id: Source) {
    && (forall key: Key :: key.id == id ==>
          (key in s.generations <==> key in t.generations) && Generation(s, key) == Generation(t, key))
    && Epoch(s, id) == Epoch(t, id)
    && (forall k :: (k in s.calls && IdOf(s.calls[k]) == id) <==> (k in t.calls && IdOf(t.calls[k]) == id))
    && (forall k :: k in s.calls && IdOf(s.calls[k]) == id && k in t.calls ==> t.calls[k] == s.calls[k])
    && (id in s.authTimers <==> id in t.authTimers)
    && (id in s.authTimers ==> s.authTimers[id] == t.authTimers[id])
  }

  lemma AlikeLive(s: State, t: State, key: Key, k: nat)
    requires Alike(s, t, key.id)
    ensures Live(s, key, k) <==> Live(t, key, k)
  {
  }

  lemma AlikeListings(s: State, t: State, id: Source, b: Browse)
    requires Alike(s, t, id) && ListingsOk(s, id, b)
    ensures ListingsOk(t, id, b)
  {
  }

  lemma AlikeRequests(s: State, t: State, id: Source, b: Browse)
    requires Alike(s, t, id) && RequestsOk(s, id, b)
    ensures RequestsOk(t, id, b)
  {
    forall k <- t.calls | t.calls[k].PageCall? && IdOf(t.calls[k]) == id && Live(t, KeyOf(t.calls[k].request), k)
      ensures k in s.calls && s.calls[k] == t.calls[k] && Live(s, KeyOf(t.calls[k].request), k)
    {
      AlikeLive(s, t, KeyOf(t.calls[k].request), k);
    }
  }

  lemma AlikeAwaited(s: State, t: State, key: Key)
    requires Alike(s, t, key.id) && Awaited(s, key)
    ensures Awaited(t, key)
  {
    var k :| Live(s, key, k) && (key.operation.OnAuth? ==> s.calls[k].OpenCall?);
    AlikeLive(s, t, key, k);
  }

  lemma AlikeLoading(s: State, t: State, id: Source, b: Browse, skip: Option<Key>)
    requires Alike(s, t, id) && LoadingOk(s, id, b, skip)
    ensures LoadingOk(t, id, b, skip)
  {
    forall key | Spins(id, b, key) && skip != Some(key) ensures Awaited(t, key) {
      AlikeAwaited(s, t, key);
    }
  }

  lemma AlikeAuth(s: State, t: State, id: Source, b: Browse)
    requires Alike(s, t, id) && AuthOk(s, id, b)
    ensures AuthOk(t, id, b)
  {
    forall k ensures Live(s, Key(id, OnAuth), k) <==> Live(t, Key(id, OnAuth), k) {
      AlikeLive(s, t, Key(id, OnAuth), k);
    }
  }

  lemma AlikeKeeps(s: State, t: State, id: Source, b: Browse, skip: Option<Key>)
    requires Alike(s, t, id) && RecordOk(s, id, b, skip)
    ensures RecordOk(t, id, b, skip)
  {
    AlikeListings(s, t, id, b);
    AlikeRequests(s, t, id, b);
    AlikeLoading(s, t, id, b, skip);
    AlikeAuth(s, t, id, b);
  }

  /** Nothing but source `id` sees a difference between `s` and `t`. */
  ghost predicate Elsewhere(s: State, t: State, id: Source) {
    forall other :: other != id ==> Alike(s, t, other) && RecordOf(s, other) == RecordOf(t, other)
  }

  /** To carry the invariant over a change at one source it is enough to look at that source. */
  lemma OneRecord(s: State, skip: Option<Key>, t: State, id: Source, skipAfter: Option<Key>)
    requires InvBut(s, skip) && (skip.Some? ==> skip.value.id == id)
    requires StoreOk(t) && Elsewhere(s, t, id)
    requires RecordOk(t, id, RecordOf(t, id), skipAfter)
    ensures InvBut(t, skipAfter)
  {
    forall other ensures RecordOk(t, other, RecordOf(t, other), skipAfter) {
      if other != id {
        AlikeKeeps(s, t, other, RecordOf(s, other), skip);
        forall key | Spins(other, RecordOf(t, other), key) ensures Awaited(t, key) {
          assert skip != Some(key);
        }
      }
    }
  }

  lemma KnownRecord(s: State, skip: Option<Key>, t: State, id: Source, b: Browse)
    requires InvBut(s, skip) && (skip.Some? ==> skip.value.id == id)
    requires StoreOk(t) && Elsewhere(s, t, id) && RecordOf(t, id) == b && RecordOk(t, id, b)
    ensures Inv(t)
  {
    OneRecord(s, skip, t, id, None);
  }

  // ---------- the moves every action is made of ----------

  /** The spinner that call `k` is to answer, if it is still to answer one. */
  function Covers(s: State, k: nat): Option<Key>
    requires k in s.calls
  {
    var held := Held(s.calls[k]);
    if held.Some? && Live(s, held.value, k) && (held.value.operation.OnAuth? ==> s.calls[k].OpenCall?)
    then held else None
  }

  lemma DropLive(s: State, k: nat, key: Key, j: nat)
    ensures Live(DropCall(s, k), key, j) <==> Live(s, key, j) && j != k
  {
  }

  lemma DropStore(s: State, k: nat)
    requires StoreOk(s)
    ensures StoreOk(DropCall(s, k))
  {
  }

  lemma DropLoading(s: State, k: nat, id: Source, b: Browse)
    requires k in s.calls && LoadingOk(s, id, b, None)
    ensures LoadingOk(DropCall(s, k), id, b, Covers(s, k))
  {
    forall key | Spins(id, b, key) && Covers(s, k) != Some(key) ensures Awaited(DropCall(s, k), key) {
      var j :| Live(s, key, j) && (key.operation.OnAuth? ==> s.calls[j].OpenCall?);
      DropLive(s, k, key, j);
    }
  }

  lemma DropRequests(s: State, k: nat, id: Source, b: Browse)
    requires RequestsOk(s, id, b)
    ensures RequestsOk(DropCall(s, k), id, b)
  {
    var t := DropCall(s, k);
    forall j <- t.calls | t.calls[j].PageCall? && Live(t, KeyOf(t.calls[j].request), j)
      ensures Live(s, KeyOf(s.calls[j].request), j)
    {
      DropLive(s, k, KeyOf(s.calls[j].request), j);
    }
  }

  lemma DropAuth(s: State, k: nat, id: Source, b: Browse)
    requires AuthOk(s, id, b)
    ensures AuthOk(DropCall(s, k), id, b)
  {
    forall j ensures Live(DropCall(s, k), Key(id, OnAuth), j) <==> Live(s, Key(id, OnAuth), j) && j != k {
      DropLive(s, k, Key(id, OnAuth), j);
    }
  }

  /** A call settles or is cleared: only the spinner it covers loses its answer. */
  lemma DropKeeps(s: State, k: nat)
    requires Inv(s) && k in s.calls
    ensures InvBut(DropCall(s, k), Covers(s, k))
  {
    var t := DropCall(s, k);
    DropStore(s, k);
    forall id ensures RecordOk(t, id, RecordOf(t, id), Covers(s, k)) {
      var b := RecordOf(s, id);
      assert RecordOk(s, id, b);
      DropLoading(s, k, id, b);
      DropRequests(s, k, id, b);
      DropAuth(s, k, id, b);
    }
  }

  lemma PatchStore(s: State, id: Source, b: Browse)
    requires StoreOk(s)
    ensures StoreOk(Patch(s, id, b))
  {
  }

  lemma PatchElsewhere(s: State, id: Source, b: Browse)
    ensures Elsewhere(s, Patch(s, id, b), id)
  {
  }

  lemma PatchedRecord(s: State, id: Source, b: Browse)
    requires RecordOk(s, id, b)
    ensures RecordOk(Patch(s, id, b), id, b)
  {
    AlikeKeeps(s, Patch(s, id, b), id, b, None);
  }

  lemma PatchKeeps(s: State, skip: Option<Key>, id: Source, b: Browse)
    requires InvBut(s, skip) && (skip.Some? ==> skip.value.id == id)
    requires RecordOk(s, id, b)
    ensures Inv(Patch(s, id, b))
  {
    PatchStore(s, id, b);
    PatchElsewhere(s, id, b);
    PatchedRecord(s, id, b);
    OneRecord(s, skip, Patch(s, id, b), id, None);
  }

  function Optionally(s: State, call: Option<Call>): State {
    if call.Some? then AddCall(s, call.value) else s
  }

  predicate Unarmed(s: State, id: Source) {
    forall k <- s.calls :: s.calls[k].PollTimer? ==> s.calls[k].id != id
  }

  /** Taking the next token of `key` with record `b`, and perhaps sending `call` with that token. */
  function Launch(s: State, key: Key, b: Browse, call: Option<Call>): State {
    Optionally(Patch(Bump(s, key), key.id, b), call)
  }

  /** The call holds the token that is taken, and is no part of a loop. */
  predicate TakesToken(s: State, key: Key, call: Option<Call>) {
    call.Some? ==>
      && Held(call.value) == Some(key) && TokenOf(call.value) == Generation(s, key) + 1
      && !call.value.PollTimer? && !call.value.PollCall?
  }

  ghost predicate MayLaunch(s: State, key: Key, b: Browse, call: Option<Call>) {
    && (call.Some? ==>
          && Held(call.value) == Some(key) && TokenOf(call.value) == Generation(s, key) + 1
          && !call.value.PollTimer? && !call.value.PollCall?)
    && (call.Some? && call.value.PageCall? ==>
          && PageCallOk(call.value) && call.value.request.epoch == Epoch(s, key.id)
          && (key.operation.OnSearch? ==> call.value.request.feed == Search(b.searchQuery))
          && (call.value.more && !call.value.request.feed.Section? ==>
                ListingIn(b, call.value.request.feed) == Some(call.value.before)))
    && (forall feed :: Key(key.id, OperationOf(feed)) != key ==>
          ListingIn(b, feed) == ListingIn(RecordOf(s, key.id), feed))
    && (!key.operation.OnSearch? ==> b.searchQuery == RecordOf(s, key.id).searchQuery)
    && ListingsOk(s, key.id, b)
    && (b.detailStatus == Loading ==> b.selected.Some?)
    && (forall spun :: Spins(key.id, b, spun) && spun != key ==> Awaited(s, spun))
    && (Spins(key.id, b, key) ==> call.Some? && (key.operation.OnAuth? ==> call.value.OpenCall?))
    && (key.operation.OnAuth? ==> Unarmed(s, key.id) && (call.Some? && call.value.OpenCall? ==> b.challenge == None))
    && (!key.operation.OnAuth? ==> b.challenge == RecordOf(s, key.id).challenge)
  }

  lemma LaunchTokens(s: State, key: Key, b: Browse, call: Option<Call>)
    requires Tokens(s) && TakesToken(s, key, call)
    ensures Tokens(Launch(s, key, b, call))
  {
    var t := Launch(s, key, b, call);
    forall k <- t.calls | Held(t.calls[k]).Some?
      ensures Held(t.calls[k]).value in t.generations && TokenOf(t.calls[k]) <= t.generations[Held(t.calls[k]).value]
      ensures k != s.nextId && Held(t.calls[k]) == Some(key) ==> TokenOf(t.calls[k]) < t.generations[key]
    {
    }
    forall id <- t.authTimers | t.authTimers[id] in t.calls
      ensures t.calls[t.authTimers[id]].PollTimer? && t.calls[t.authTimers[id]].id == id
    {
      assert t.authTimers[id] != s.nextId;
    }
  }

  lemma LaunchPages(s: State, key: Key, b: Browse, call: Option<Call>)
    requires PageCallsOk(s) && (call.Some? && call.value.PageCall? ==> PageCallOk(call.value))
    ensures PageCallsOk(Launch(s, key, b, call))
  {
  }

  lemma LaunchView(s: State, key: Key, b: Browse, call: Option<Call>)
    requires SectionsOk(s) && TopOk(s)
    ensures SectionsOk(Launch(s, key, b, call)) && TopOk(Launch(s, key, b, call))
  {
  }

  lemma LaunchStore(s: State, key: Key, b: Browse, call: Option<Call>)
    requires StoreOk(s) && TakesToken(s, key, call)
    requires call.Some? && call.value.PageCall? ==> PageCallOk(call.value)
    ensures StoreOk(Launch(s, key, b, call))
  {
    LaunchTokens(s, key, b, call);
    LaunchPages(s, key, b, call);
    LaunchView(s, key, b, call);
  }

  lemma BumpElsewhere(s: State, key: Key)
    ensures Elsewhere(s, Bump(s, key), key.id)
  {
  }

  lemma AddElsewhere(s: State, call: Call)
    requires s.nextId !in s.calls
    ensures Elsewhere(s, AddCall(s, call), IdOf(call))
  {
  }

  lemma LaunchElsewhere(s: State, key: Key, b: Browse, call: Option<Call>)
    requires Tokens(s) && (call.Some? ==> IdOf(call.value) == key.id)
    ensures Elsewhere(s, Launch(s, key, b, call), key.id)
  {
    var bumped := Bump(s, key);
    var sent := Patch(bumped, key.id, b);
    BumpElsewhere(s, key);
    PatchElsewhere(bumped, key.id, b);
    ElsewhereTransitive(s, bumped, sent, key.id);
    if call.Some? {
      AddElsewhere(sent, call.value);
      ElsewhereTransitive(s, sent, Launch(s, key, b, call), key.id);
    }
  }

  lemma LaunchLive(s: State, key: Key, b: Browse, call: Option<Call>)
    requires Tokens(s) && TakesToken(s, key, call)
    ensures var t := Launch(s, key, b, call);
            && (forall other: Key, k :: other != key ==> (Live(t, other, k) <==> Live(s, other, k)))
            && (forall k :: Live(t, key, k) <==> call.Some? && k == s.nextId)
  {
  }

  lemma LaunchRequests(s: State, key: Key, b: Browse, call: Option<Call>)
    requires Tokens(s) && RequestsOk(s, key.id, RecordOf(s, key.id)) && TakesToken(s, key, call)
    requires call.Some? && call.value.PageCall? ==>
               && call.value.request.epoch == Epoch(s, key.id)
               && (key.operation.OnSearch? ==> call.value.request.feed == Search(b.searchQuery))
               && (call.value.more && !call.value.request.feed.Section? ==>
                     ListingIn(b, call.value.request.feed) == Some(call.value.before))
    requires forall feed :: Key(key.id, OperationOf(feed)) != key ==>
               ListingIn(b, feed) == ListingIn(RecordOf(s, key.id), feed)
    requires !key.operation.OnSearch? ==> b.searchQuery == RecordOf(s, key.id).searchQuery
    ensures RequestsOk(Launch(s, key, b, call), key.id, b)
  {
    LaunchLive(s, key, b, call);
  }

  lemma LaunchAuth(s: State, key: Key, b: Browse, call: Option<Call>)
    requires Tokens(s) && AuthOk(s, key.id, RecordOf(s, key.id)) && TakesToken(s, key, call)
    requires key.operation.OnAuth? ==>
               Unarmed(s, key.id) && (call.Some? && call.value.OpenCall? ==> b.challenge == None)
    requires !key.operation.OnAuth? ==> b.challenge == RecordOf(s, key.id).challenge
    ensures AuthOk(Launch(s, key, b, call), key.id, b)
  {
    LaunchLive(s, key, b, call);
  }

  lemma LaunchLoading(s: State, key: Key, b: Browse, call: Option<Call>)
    requires Tokens(s) && MayLaunch(s, key, b, call)
    ensures LoadingOk(Launch(s, key, b, call), key.id, b, None)
  {
    var t := Launch(s, key, b, call);
    LaunchLive(s, key, b, call);
    forall spun | Spins(key.id, b, spun) ensures Awaited(t, spun) {
      if spun == key {
        assert Live(t, key, s.nextId);
      } else {
        var k :| Live(s, spun, k) && (spun.operation.OnAuth? ==> s.calls[k].OpenCall?);
        assert Live(t, spun, k);
      }
    }
  }

  lemma LaunchedRecord(s: State, key: Key, b: Browse, call: Option<Call>)
    ensures RecordOf(Launch(s, key, b, call), key.id) == b
  {
  }

  lemma LaunchListings(s: State, key: Key, b: Browse, call: Option<Call>)
    requires ListingsOk(s, key.id, b)
    ensures ListingsOk(Launch(s, key, b, call), key.id, b)
  {
    assert Epoch(Launch(s, key, b, call), key.id) == Epoch(s, key.id);
  }

  lemma LaunchRecord(s: State, skip: Option<Key>, key: Key, b: Browse, call: Option<Call>)
    requires InvBut(s, skip) && MayLaunch(s, key, b, call)
    ensures RecordOk(Launch(s, key, b, call), key.id, b)
  {
    assert RecordOk(s, key.id, RecordOf(s, key.id), skip);
    LaunchListings(s, key, b, call);
    LaunchRequests(s, key, b, call);
    LaunchAuth(s, key, b, call);
    LaunchLoading(s, key, b, call);
  }

  lemma LaunchAround(s: State, key: Key, b: Browse, call: Option<Call>)
    requires StoreOk(s) && MayLaunch(s, key, b, call)
    ensures StoreOk(Launch(s, key, b, call)) && Elsewhere(s, Launch(s, key, b, call), key.id)
  {
    LaunchStore(s, key, b, call);
    LaunchElsewhere(s, key, b, call);
  }

  lemma LaunchKeeps(s: State, skip: Option<Key>, key: Key, b: Browse, call: Option<Call>)
    requires InvBut(s, skip) && (skip.Some? ==> skip.value.id == key.id)
    requires MayLaunch(s, key, b, call)
    ensures Inv(Launch(s, key, b, call))
  {
    LaunchAround(s, key, b, call);
    LaunchRecord(s, skip, key, b, call);
    LaunchedRecord(s, key, b, call);
    KnownRecord(s, skip, Launch(s, key, b, call), key.id, b);
  }

  lemma PlainStore(s: State, call: Call)
    requires StoreOk(s) && Held(call) == None
    ensures StoreOk(AddCall(s, call))
  {
    var t := AddCall(s, call);
    forall id <- t.authTimers ensures t.authTimers[id] != s.nextId {
    }
    assert Tokens(t);
  }

  lemma PlainLive(s: State, call: Call)
    requires Tokens(s) && Held(call) == None
    ensures forall key, k :: Live(AddCall(s, call), key, k) <==> Live(s, key, k)
  {
  }

  lemma PlainLoading(s: State, call: Call, id: Source, b: Browse, skip: Option<Key>)
    requires Tokens(s) && Held(call) == None && LoadingOk(s, id, b, skip)
    ensures LoadingOk(AddCall(s, call), id, b, skip)
  {
    PlainLive(s, call);
    forall key | Spins(id, b, key) && skip != Some(key) ensures Awaited(AddCall(s, call), key) {
      var k :| Live(s, key, k) && (key.operation.OnAuth? ==> s.calls[k].OpenCall?);
      assert Live(AddCall(s, call), key, k);
    }
  }

  lemma PlainRequests(s: State, call: Call, id: Source, b: Browse)
    requires Tokens(s) && Held(call) == None && RequestsOk(s, id, b)
    ensures RequestsOk(AddCall(s, call), id, b)
  {
    PlainLive(s, call);
  }

  lemma PlainAuth(s: State, call: Call, id: Source, b: Browse)
    requires Tokens(s) && Held(call) == None && AuthOk(s, id, b)
    ensures AuthOk(AddCall(s, call), id, b)
  {
    PlainLive(s, call);
  }

  lemma PlainRecord(s: State, call: Call, id: Source, b: Browse, skip: Option<Key>)
    requires Tokens(s) && Held(call) == None && RecordOk(s, id, b, skip)
    ensures RecordOk(AddCall(s, call), id, b, skip)
  {
    PlainLoading(s, call, id, b, skip);
    PlainRequests(s, call, id, b);
    PlainAuth(s, call, id, b);
    assert Epoch(AddCall(s, call), id) == Epoch(s, id);
  }

  /** A call that holds no token is in nobody's way. */
  lemma PlainKeeps(s: State, call: Call)
    requires Inv(s) && Held(call) == None
    ensures Inv(AddCall(s, call))
  {
    PlainStore(s, call);
    AddElsewhere(s, call);
    var id := IdOf(call);
    assert RecordOk(s, id, RecordOf(s, id));
    PlainRecord(s, call, id, RecordOf(s, id), None);
    OneRecord(s, None, AddCall(s, call), id, None);
  }

  // ---------- timers and the sign-in loop ----------

  lemma ClearUnarmed(s: State, id: Source)
    requires AuthOk(s, id, RecordOf(s, id))
    ensures Unarmed(ClearTimer(s, id), id)
  {
  }

  lemma ClearCases(s: State, id: Source)
    requires Tokens(s)
    ensures ClearTimer(s, id) == s
         || (id in s.authTimers && s.authTimers[id] in s.calls
             && ClearTimer(s, id) == DropCall(s, s.authTimers[id]) && Covers(s, s.authTimers[id]) == None)
  {
    if id in s.authTimers && s.authTimers[id] !in s.calls {
      assert s.calls - {s.authTimers[id]} == s.calls;
    }
  }

  lemma ClearKeeps(s: State, id: Source)
    requires Inv(s)
    ensures Inv(ClearTimer(s, id)) && Unarmed(ClearTimer(s, id), id)
  {
    assert RecordOk(s, id, RecordOf(s, id));
    ClearUnarmed(s, id);
    ClearCases(s, id);
    if ClearTimer(s, id) != s {
      DropKeeps(s, s.authTimers[id]);
    }
  }

  lemma ForgetRecord(s: State, id: Source, b: Browse)
    requires Tokens(s) && RecordOk(s, id, b) && Unarmed(s, id)
    ensures RecordOk(s.(authTimers := s.authTimers - {id}), id, b)
  {
    var t := s.(authTimers := s.authTimers - {id});
    forall key, k ensures Live(t, key, k) <==> Live(s, key, k) {
    }
    forall key | Spins(id, b, key) ensures Awaited(t, key) {
      var k :| Live(s, key, k) && (key.operation.OnAuth? ==> s.calls[k].OpenCall?);
      assert Live(t, key, k);
    }
    assert RequestsOk(t, id, b);
    assert AuthOk(t, id, b);
  }

  /** Clearing the source's timer drops at most one call, and that call belongs to the source. */
  lemma ForgetCalls(s: State, id: Source)
    requires Tokens(s)
    ensures var t := ForgetTimer(s, id);
            && (forall k <- t.calls :: k in s.calls && t.calls[k] == s.calls[k])
            && (forall k <- s.calls :: k !in t.calls ==> IdOf(s.calls[k]) == id)
            && t.authTimers == s.authTimers - {id}
  {
  }

  lemma ForgetElsewhere(s: State, id: Source)
    requires Tokens(s)
    ensures Elsewhere(s, ForgetTimer(s, id), id)
  {
    ForgetCalls(s, id);
    var t := ForgetTimer(s, id);
    forall other | other != id ensures Alike(s, t, other) && RecordOf(s, other) == RecordOf(t, other) {
    }
  }

  lemma ForgetStore(s: State, id: Source)
    requires StoreOk(s)
    ensures StoreOk(ForgetTimer(s, id))
  {
    var t := ForgetTimer(s, id);
    ForgetCalls(s, id);
    assert Tokens(t);
    assert PageCallsOk(t);
  }

  lemma ForgetKeeps(s: State, id: Source)
    requires Inv(s)
    ensures Inv(ForgetTimer(s, id)) && Unarmed(ForgetTimer(s, id), id)
  {
    ClearKeeps(s, id);
    var c := ClearTimer(s, id);
    var t := ForgetTimer(s, id);
    assert t == c.(authTimers := c.authTimers - {id});
    assert RecordOk(c, id, RecordOf(c, id));
    ForgetRecord(c, id, RecordOf(c, id));
    ForgetStore(s, id);
    ForgetElsewhere(s, id);
    OneRecord(s, None, t, id, None);
  }

  /** No call out at the backend, and no timer, holds the current token of `key`. */
  ghost predicate Unheld(s: State, key: Key) {
    forall k :: !Live(s, key, k)
  }

  /** Tokens of one key are never shared, so once the live holder is gone nobody is live. */
  lemma DropUnheld(s: State, key: Key, k: nat)
    requires Tokens(s) && Live(s, key, k)
    ensures Unheld(DropCall(s, k), key)
  {
  }

  function Hold(s: State, call: Call): State
    requires call.PollTimer? || call.PollCall?
  {
    if call.PollTimer? then Arm(s, call.id, call.challenge, call.token) else AddCall(s, call)
  }

  ghost predicate MayHold(s: State, b: Browse, call: Call)
    requires call.PollTimer? || call.PollCall?
  {
    && Current(s, Key(call.id, OnAuth), call.token)
    && Unheld(s, Key(call.id, OnAuth))
    && b.challenge == Some(call.challenge)
    && b.authStatus != Loading
  }

  lemma AddedTokens(s: State, b: Browse, call: Call)
    requires call.PollTimer? || call.PollCall?
    requires Tokens(s) && MayHold(s, b, call)
    ensures Tokens(AddCall(s, call))
  {
    var key := Key(call.id, OnAuth);
    forall k <- s.calls | Held(s.calls[k]) == Some(key) ensures TokenOf(s.calls[k]) != call.token {
      assert !Live(s, key, k);
    }
    forall id <- s.authTimers ensures s.authTimers[id] != s.nextId {
    }
  }

  lemma ArmedTokens(s: State, id: Source, handle: nat)
    requires Tokens(s) && handle in s.calls && s.calls[handle].PollTimer? && s.calls[handle].id == id
    ensures Tokens(s.(authTimers := s.authTimers[id := handle]))
  {
  }

  lemma HoldTokens(s: State, b: Browse, call: Call)
    requires call.PollTimer? || call.PollCall?
    requires Tokens(s) && MayHold(s, b, call)
    ensures Tokens(Hold(s, call))
  {
    AddedTokens(s, b, call);
    if call.PollTimer? {
      ArmedTokens(AddCall(s, call), call.id, s.nextId);
    }
  }

  lemma HoldView(s: State, call: Call)
    requires call.PollTimer? || call.PollCall?
    requires PageCallsOk(s) && SectionsOk(s) && TopOk(s)
    ensures PageCallsOk(Hold(s, call)) && SectionsOk(Hold(s, call)) && TopOk(Hold(s, call))
  {
  }

  lemma HoldStore(s: State, b: Browse, call: Call)
    requires call.PollTimer? || call.PollCall?
    requires StoreOk(s) && MayHold(s, b, call)
    ensures StoreOk(Hold(s, call))
  {
    HoldTokens(s, b, call);
    HoldView(s, call);
  }

  lemma ArmElsewhere(s: State, id: Source, handle: nat)
    ensures Elsewhere(s, s.(authTimers := s.authTimers[id := handle]), id)
  {
  }

  lemma HoldElsewhere(s: State, call: Call)
    requires Tokens(s) && (call.PollTimer? || call.PollCall?)
    ensures Elsewhere(s, Hold(s, call), call.id)
  {
    var added := AddCall(s, call);
    AddElsewhere(s, call);
    ArmElsewhere(added, call.id, s.nextId);
    if call.PollTimer? {
      assert Hold(s, call) == added.(authTimers := added.authTimers[call.id := s.nextId]);
      ElsewhereTransitive(s, added, Hold(s, call), call.id);
    }
  }

  lemma HoldLoop(s: State, b: Browse, call: Call, k: nat)
    requires call.PollTimer? || call.PollCall?
    requires MayHold(s, b, call)
    ensures Live(Hold(s, call), Key(call.id, OnAuth), k) <==> k == s.nextId
  {
    assert !Live(s, Key(call.id, OnAuth), k);
  }

  lemma HoldOther(s: State, call: Call, key: Key, k: nat)
    requires call.PollTimer? || call.PollCall?
    requires Tokens(s) && key != Key(call.id, OnAuth)
    ensures Live(Hold(s, call), key, k) <==> Live(s, key, k)
  {
  }

  lemma HoldLive(s: State, b: Browse, call: Call)
    requires call.PollTimer? || call.PollCall?
    requires Tokens(s) && MayHold(s, b, call)
    ensures var t := Hold(s, call); var loop := Key(call.id, OnAuth);
            && (forall key, k :: key != loop ==> (Live(t, key, k) <==> Live(s, key, k)))
            && (forall k :: Live(t, loop, k) <==> k == s.nextId)
  {
    var loop := Key(call.id, OnAuth);
    forall k ensures Live(Hold(s, call), loop, k) <==> k == s.nextId {
      HoldLoop(s, b, call, k);
    }
    forall key, k | key != loop ensures Live(Hold(s, call), key, k) <==> Live(s, key, k) {
      HoldOther(s, call, key, k);
    }
  }

  lemma HoldAuth(s: State, was: Browse, b: Browse, call: Call)
    requires call.PollTimer? || call.PollCall?
    requires Tokens(s) && AuthOk(s, call.id, was) && MayHold(s, b, call)
    ensures AuthOk(Hold(s, call), call.id, b)
  {
    HoldLive(s, b, call);
    forall k <- s.calls | s.calls[k].PollTimer? ensures s.calls[k].id != call.id {
      assert !Live(s, Key(call.id, OnAuth), k);
    }
  }

  lemma HoldLoading(s: State, b: Browse, call: Call)
    requires call.PollTimer? || call.PollCall?
    requires Tokens(s) && MayHold(s, b, call) && LoadingOk(s, call.id, b, None)
    ensures LoadingOk(Hold(s, call), call.id, b, None)
  {
    HoldLive(s, b, call);
    forall key | Spins(call.id, b, key) ensures Awaited(Hold(s, call), key) {
      assert key.operation != OnAuth && Awaited(s, key);
      var k :| Live(s, key, k);
      assert Live(Hold(s, call), key, k);
    }
  }

  lemma HoldRequests(s: State, b: Browse, call: Call)
    requires call.PollTimer? || call.PollCall?
    requires Tokens(s) && MayHold(s, b, call) && RequestsOk(s, call.id, b)
    ensures RequestsOk(Hold(s, call), call.id, b)
  {
    HoldLive(s, b, call);
  }

  lemma HoldRecord(s: State, was: Browse, b: Browse, call: Call)
    requires call.PollTimer? || call.PollCall?
    requires Tokens(s) && AuthOk(s, call.id, was) && MayHold(s, b, call)
    requires ListingsOk(s, call.id, b) && RequestsOk(s, call.id, b) && LoadingOk(s, call.id, b, None)
    ensures RecordOk(Hold(s, call), call.id, b)
  {
    HoldAuth(s, was, b, call);
    HoldLoading(s, b, call);
    HoldRequests(s, b, call);
  }

  /** The loop passes its token on: reply to timer, timer to poll, poll to timer. */
  lemma HoldKeeps(s: State, skip: Option<Key>, b: Browse, call: Call)
    requires call.PollTimer? || call.PollCall?
    requires InvBut(s, skip) && (skip.Some? ==> skip.value == Key(call.id, OnAuth))
    requires MayHold(s, b, call)
    requires ListingsOk(s, call.id, b) && RequestsOk(s, call.id, b) && LoadingOk(s, call.id, b, None)
    ensures Inv(Patch(Hold(s, call), call.id, b))
  {
    var id := call.id;
    var held := Hold(s, call);
    var t := Patch(held, id, b);
    assert RecordOk(s, id, RecordOf(s, id), skip);
    assert StoreOk(t) by {
      HoldStore(s, b, call);
      PatchStore(held, id, b);
    }
    HoldFrame(s, b, call);
    HeldRecord(s, b, call);
    OneRecord(s, skip, t, id, None);
  }

  lemma HeldRecord(s: State, b: Browse, call: Call)
    requires call.PollTimer? || call.PollCall?
    requires Tokens(s) && AuthOk(s, call.id, RecordOf(s, call.id)) && MayHold(s, b, call)
    requires ListingsOk(s, call.id, b) && RequestsOk(s, call.id, b) && LoadingOk(s, call.id, b, None)
    ensures RecordOk(Patch(Hold(s, call), call.id, b), call.id, b)
  {
    HoldRecord(s, RecordOf(s, call.id), b, call);
    PatchedRecord(Hold(s, call), call.id, b);
  }

  lemma HoldFrame(s: State, b: Browse, call: Call)
    requires call.PollTimer? || call.PollCall?
    requires Tokens(s) && MayHold(s, b, call)
    ensures Elsewhere(s, Patch(Hold(s, call), call.id, b), call.id)
  {
    HoldElsewhere(s, call);
    PatchElsewhere(Hold(s, call), call.id, b);
    ElsewhereTransitive(s, Hold(s, call), Patch(Hold(s, call), call.id, b), call.id);
  }

  lemma ElsewhereTransitive(s: State, t: State, u: State, id: Source)
    requires Elsewhere(s, t, id) && Elsewhere(t, u, id)
    ensures Elsewhere(s, u, id)
  {
  }

  // ---------- resets and failures ----------

  /** A record without lists, spinners or challenge. */
  predicate Fresh(b: Browse) {
    && b.liked == NO_LISTING && b.search == NO_LISTING && b.details == map[]
    && b.selected == None && b.detail == None && b.challenge == None
    && b.likedStatus != Loading && b.searchStatus != Loading && b.detailStatus != Loading
    && b.sessionStatus != Loading && b.authStatus != Loading
  }

  /** Once a source is invalidated nothing it had out is live any more. */
  lemma InvalidateSilences(s: State, id: Source)
    requires Tokens(s)
    ensures forall key: Key, k :: key.id == id ==> !Live(Invalidate(s, id), key, k)
  {
  }

  lemma InvalidateStore(s: State, id: Source)
    requires StoreOk(s)
    ensures StoreOk(Invalidate(s, id))
  {
    ForgetStore(s, id);
    assert Tokens(Invalidate(s, id));
  }

  lemma InvalidateElsewhere(s: State, id: Source)
    requires Tokens(s)
    ensures Elsewhere(s, Invalidate(s, id), id)
  {
    var f := ForgetTimer(s, id);
    var t := Invalidate(s, id);
    ForgetElsewhere(s, id);
    forall other | other != id ensures Alike(f, t, other) && RecordOf(f, other) == RecordOf(t, other) {
    }
    ElsewhereTransitive(s, f, t, id);
  }

  lemma SilentRecord(s: State, id: Source, b: Browse)
    requires Fresh(b) && Unarmed(s, id)
    requires forall key: Key, k :: key.id == id ==> !Live(s, key, k)
    ensures RecordOk(s, id, b)
  {
  }

  lemma ResetStore(s: State, id: Source, b: Browse)
    requires StoreOk(s)
    ensures StoreOk(Reset(s, id, b))
  {
    InvalidateStore(s, id);
    PatchStore(Invalidate(s, id), id, b);
  }

  lemma ResetElsewhere(s: State, id: Source, b: Browse)
    requires Tokens(s)
    ensures Elsewhere(s, Reset(s, id, b), id)
  {
    InvalidateElsewhere(s, id);
    PatchElsewhere(Invalidate(s, id), id, b);
    ElsewhereTransitive(s, Invalidate(s, id), Reset(s, id, b), id);
  }

  lemma InvalidateUnarms(s: State, id: Source)
    requires Inv(s)
    ensures Unarmed(Invalidate(s, id), id)
  {
    ForgetKeeps(s, id);
    assert Invalidate(s, id).calls == ForgetTimer(s, id).calls;
  }

  lemma ResetRecord(s: State, id: Source, b: Browse)
    requires Inv(s) && Fresh(b)
    ensures RecordOk(Reset(s, id, b), id, b)
  {
    InvalidateSilences(s, id);
    InvalidateUnarms(s, id);
    SilentRecord(Invalidate(s, id), id, b);
    PatchedRecord(Invalidate(s, id), id, b);
  }

  lemma ResetKeeps(s: State, id: Source, b: Browse)
    requires Inv(s) && Fresh(b)
    ensures Inv(Reset(s, id, b))
  {
    ResetStore(s, id, b);
    ResetElsewhere(s, id, b);
    ResetRecord(s, id, b);
    assert RecordOf(Reset(s, id, b), id) == b;
    OneRecord(s, None, Reset(s, id, b), id, None);
  }

  /** Records that differ only where the invariant does not look. */
  ghost predicate SameTo(b: Browse, c: Browse) {
    && b.liked == c.liked && b.details == c.details && b.selected == c.selected && b.detail == c.detail
    && b.search == c.search && b.searchQuery == c.searchQuery && b.challenge == c.challenge
    && (forall id, key :: Spins(id, c, key) ==> Spins(id, b, key))
    && (c.detailStatus == Loading ==> b.detailStatus == Loading)
  }

  lemma SameRecord(s: State, id: Source, b: Browse, c: Browse, skip: Option<Key>)
    requires RecordOk(s, id, b, skip) && SameTo(b, c)
    requires forall key :: Spins(id, c, key) ==> skip != Some(key)
    ensures RecordOk(s, id, c)
  {
  }

  lemma TouchKeeps(s: State, skip: Option<Key>, id: Source, b: Browse)
    requires InvBut(s, skip) && (skip.Some? ==> skip.value.id == id)
    requires SameTo(RecordOf(s, id), b)
    requires forall key :: Spins(id, b, key) ==> skip != Some(key)
    ensures Inv(Patch(s, id, b))
  {
    assert RecordOk(s, id, RecordOf(s, id), skip);
    SameRecord(s, id, RecordOf(s, id), b, skip);
    PatchKeeps(s, skip, id, b);
  }

  lemma FailKeeps(s: State, id: Source, slot: string, error: Error)
    requires Inv(s)
    ensures Inv(Fail(s, id, slot, error))
  {
    var was := RecordOf(s, id);
    var b := was.(errors := was.errors[slot := error.message]);
    TouchKeeps(s, None, id, b);
    if error.expired {
      ResetKeeps(Patch(s, id, b), id,
                 EMPTY_BROWSE.(sessionStatus := Ready, session := Some(Session(false, true))));
    }
  }
}
