/** Runs from the empty store that end where the store breaks what one would expect of it. */
module CatalogBrowseExamples {
  import opened Basics
  import opened CatalogBrowse
  import opened CatalogBrowseProofs
  import opened CatalogBrowseQueries
  import opened CatalogBrowseRuns
  import opened CatalogBrowseSections
  import opened CatalogBrowseTheorems

  lemma {:induction false} RunOn(s: State, es: seq<Event>, t: State, e: Event)
    requires Runs(s, es, t) && Possible(t, e)
    ensures Runs(s, es + [e], Step(t, e))
    decreases |es|
  {
    if es == [] {
      assert [e][1..] == [];
      assert Runs(Step(s, e), [], Step(t, e));
    } else {
      RunOn(Step(s, es[0]), es[1..], t, e);
      assert (es + [e])[1..] == es[1..] + [e];
    }
  }

  const ID := "x"
  const SOURCE := SourceInfo(ID, true, true, true, Usual, true, false)

  /** The store that knows one source, which may search without a session. */
  const KNOWN := INITIAL.(sources := [SOURCE])

  lemma KnownRuns()
    ensures Runs(INITIAL, [ApplySource(SOURCE)], KNOWN)
    ensures MaySearch(FindSource(KNOWN.sources, ID), None) && Candidates(KNOWN.sources) == [ID]
  {
    assert FindSource([], ID) == None;
    assert Candidates(KNOWN.sources) == [ID] + Candidates([]);
    assert [] + [SOURCE] == [SOURCE];
    var es := [ApplySource(SOURCE)];
    assert Step(INITIAL, es[0]) == KNOWN;
    assert es[1..] == [];
  }

  lemma TrimLetters()
    ensures Trim("a") == "a" && Trim("b") == "b"
  {
    assert TrimStart("a") == "a" && TrimEnd("a") == "a" && TrimStart("b") == "b" && TrimEnd("b") == "b";
  }

  const WAITING := SectionState(Loading, NO_LISTING)

  /** The store after a search everywhere: a section that waits and its part at call `k`. */
  function Searched(s: State, query: string): State {
    s.(view := SearchView, active := None, top := EMPTY_BROWSE,
       global := GlobalSearch(query, map[ID := WAITING]),
       calls := s.calls[s.nextId := SectionStart(ID, query)], nextId := s.nextId + 1)
  }

  lemma SearchedStep(s: State, query: string)
    requires s.sources == KNOWN.sources && Trim(query) == query && query != ""
    ensures Step(s, SearchEverywhere(query)) == Searched(s, query)
  {
    KnownRuns();
    var shown := s.(view := SearchView, active := None, top := EMPTY_BROWSE,
                    global := GlobalSearch(query, map[ID := WAITING]));
    assert (map id | id in [ID] :: WAITING) == map[ID := WAITING];
    assert AddStarts(shown, [ID], query) == AddStarts(AddCall(shown, SectionStart(ID, query)), [], query);
  }

  const SESSION := Session(true, false)

  /** A part of a search starts before any session was loaded: the session is asked for. */
  lemma PartAsksSession(s: State, k: nat, query: string)
    requires k in s.calls && s.calls[k] == SectionStart(ID, query) && k < s.nextId
    requires RecordOf(s, ID) == EMPTY_BROWSE && s.view != Streaming && s.active == None && s.generations == map[]
    ensures Possible(s, Settle(k, Done))
    ensures var t := Step(s, Settle(k, Done));
            && t.calls == (s.calls - {k})[s.nextId := SessionCall(ID, 1, Some(query))] && t.nextId == s.nextId + 1
            && t.generations == map[Key(ID, OnSession) := 1]
            && t.records == s.records[ID := EMPTY_BROWSE.(sessionStatus := Loading)]
            && t.global == s.global && t.sources == s.sources && t.epochs == s.epochs && t.view == s.view
            && t.active == s.active && t.authTimers == s.authTimers
  {
  }

  /** A part that starts later asks for its page. */
  lemma PartAsksPage(s: State, k: nat, query: string)
    requires k in s.calls && s.calls[k] == SectionStart(ID, query) && k < s.nextId
    requires s.sources == KNOWN.sources && RecordOf(s, ID).sessionStatus != Idle
    ensures Possible(s, Settle(k, Done))
    ensures var t := Step(s, Settle(k, Done)); var token := Generation(s, Key(ID, OnSection)) + 1;
            && t.calls == (s.calls - {k})[s.nextId :=
                 PageCall(Request(ID, Section(query), None, Epoch(s, ID)), false, SectionOf(s, ID).listing, token)]
            && t.nextId == s.nextId + 1 && t.generations == s.generations[Key(ID, OnSection) := token]
            && t.records == s.records && t.sources == s.sources && t.epochs == s.epochs && t.view == s.view
            && t.active == s.active && t.authTimers == s.authTimers && t.global.query == s.global.query
            && (s.global == GlobalSearch(s.global.query, map[ID := WAITING]) ==> t.global == s.global)
  {
    PartStep(s, k, query);
    AskedState(DropCall(s, k), query);
  }

  lemma AskedState(s: State, query: string)
    requires s.sources == KNOWN.sources
    ensures var t := SearchSectionStep(s, ID, query, None); var token := Generation(s, Key(ID, OnSection)) + 1;
            && t.calls == s.calls[s.nextId :=
                 PageCall(Request(ID, Section(query), None, Epoch(s, ID)), false, SectionOf(s, ID).listing, token)]
            && t.nextId == s.nextId + 1 && t.generations == s.generations[Key(ID, OnSection) := token]
            && t.records == s.records && t.sources == s.sources && t.epochs == s.epochs && t.view == s.view
            && t.active == s.active && t.authTimers == s.authTimers && t.global.query == s.global.query
            && (s.global == GlobalSearch(s.global.query, map[ID := WAITING]) ==> t.global == s.global)
  {
    assert FindSource(KNOWN.sources, ID) == Some(SOURCE);
    SearchSectionShape(s, ID, query, None);
  }

  lemma PartStep(s: State, k: nat, query: string)
    requires k in s.calls && s.calls[k] == SectionStart(ID, query) && RecordOf(s, ID).sessionStatus != Idle
    ensures Step(s, Settle(k, Done)) == SearchSectionStep(DropCall(s, k), ID, query, None)
  {
  }

  /** The session it waited for arrives: the part starts again. */
  lemma PartGoesOn(s: State, k: nat, query: string)
    requires k in s.calls && s.calls[k] == SessionCall(ID, 1, Some(query)) && k < s.nextId
    requires Key(ID, OnSession) in s.generations && s.generations[Key(ID, OnSession)] == 1
    requires s.view != Streaming && s.active == None
    ensures Possible(s, Settle(k, SessionIs(SESSION)))
    ensures var t := Step(s, Settle(k, SessionIs(SESSION)));
            && t.calls == (s.calls - {k})[s.nextId := SectionStart(ID, query)] && t.nextId == s.nextId + 1
            && t.generations == s.generations
            && t.records == s.records[ID := RecordOf(s, ID).(session := Some(SESSION), sessionStatus := Ready)]
            && t.global == s.global && t.sources == s.sources && t.epochs == s.epochs && t.view == s.view
            && t.active == s.active && t.authTimers == s.authTimers
  {
  }

  /** The first search has sent for the session. */
  lemma FirstSearch() returns (es: seq<Event>, t: State)
    ensures Runs(INITIAL, es, t)
    ensures t.sources == KNOWN.sources && t.view == SearchView && t.active == None && t.epochs == map[] && t.nextId == 2
    ensures t.global == GlobalSearch("a", map[ID := WAITING]) && t.calls == map[1 := SessionCall(ID, 1, Some("a"))]
    ensures t.generations == map[Key(ID, OnSession) := 1]
    ensures t.records == map[ID := EMPTY_BROWSE.(sessionStatus := Loading)]
    ensures t.authTimers == map[]
  {
    KnownRuns();
    TrimLetters();
    SearchedStep(KNOWN, "a");
    var searched := Searched(KNOWN, "a");
    RunOn(INITIAL, [ApplySource(SOURCE)], KNOWN, SearchEverywhere("a"));
    es := [ApplySource(SOURCE)] + [SearchEverywhere("a")];
    FirstSearchState();
    RunOn(INITIAL, es, searched, Settle(0, Done));
    es := es + [Settle(0, Done)];
    t := Step(searched, Settle(0, Done));
  }

  lemma FirstSearchState()
    ensures Possible(Searched(KNOWN, "a"), Settle(0, Done))
    ensures var t := Step(Searched(KNOWN, "a"), Settle(0, Done));
            && t.sources == KNOWN.sources && t.view == SearchView && t.active == None && t.epochs == map[]
            && t.nextId == 2
            && t.global == GlobalSearch("a", map[ID := WAITING]) && t.calls == map[1 := SessionCall(ID, 1, Some("a"))]
            && t.generations == map[Key(ID, OnSession) := 1]
            && t.records == map[ID := EMPTY_BROWSE.(sessionStatus := Loading)] && t.authTimers == map[]
  {
    assert Searched(KNOWN, "a").calls == map[0 := SectionStart(ID, "a")];
    PartAsksSession(Searched(KNOWN, "a"), 0, "a");
  }

  function SectionPage(query: string, token: nat): Call {
    PageCall(Request(ID, Section(query), None, 0), false, NO_LISTING, token)
  }

  /** What all these states have in common: one source, one waiting section, no reset yet. */
  predicate Shows(s: State, query: string, next: nat) {
    && s.sources == KNOWN.sources && s.view == SearchView && s.active == None && s.epochs == map[] && s.nextId == next
    && s.global == GlobalSearch(query, map[ID := WAITING])
  }

  lemma SecondSearch() returns (es: seq<Event>, t: State)
    ensures Runs(INITIAL, es, t) && Shows(t, "b", 3)
    ensures t.calls == map[1 := SessionCall(ID, 1, Some("a")), 2 := SectionStart(ID, "b")]
    ensures t.generations == map[Key(ID, OnSession) := 1]
    ensures t.records == map[ID := EMPTY_BROWSE.(sessionStatus := Loading)]
  {
    var s: State;
    es, s := FirstSearch();
    TrimLetters();
    SearchedStep(s, "b");
    RunOn(INITIAL, es, s, SearchEverywhere("b"));
    es := es + [SearchEverywhere("b")];
    t := Searched(s, "b");
  }

  lemma SecondPage() returns (es: seq<Event>, t: State)
    ensures Runs(INITIAL, es, t) && Shows(t, "b", 4)
    ensures t.calls == map[1 := SessionCall(ID, 1, Some("a")), 3 := SectionPage("b", 1)]
    ensures t.generations == map[Key(ID, OnSession) := 1, Key(ID, OnSection) := 1]
    ensures RecordOf(t, ID).sessionStatus == Loading
  {
    var s: State;
    es, s := SecondSearch();
    SecondPageState(s);
    RunOn(INITIAL, es, s, Settle(2, Done));
    es := es + [Settle(2, Done)];
    t := Step(s, Settle(2, Done));
  }

  lemma SecondPageState(s: State)
    requires Shows(s, "b", 3) && s.calls == map[1 := SessionCall(ID, 1, Some("a")), 2 := SectionStart(ID, "b")]
    requires s.generations == map[Key(ID, OnSession) := 1] && RecordOf(s, ID).sessionStatus == Loading
    ensures var t := Step(s, Settle(2, Done));
            && Shows(t, "b", 4) && t.calls == map[1 := SessionCall(ID, 1, Some("a")), 3 := SectionPage("b", 1)]
            && t.generations == map[Key(ID, OnSession) := 1, Key(ID, OnSection) := 1]
            && RecordOf(t, ID).sessionStatus == Loading
  {
    PartAsksPage(s, 2, "b");
  }

  lemma LateSession() returns (es: seq<Event>, t: State)
    ensures Runs(INITIAL, es, t) && Shows(t, "b", 5)
    ensures t.calls == map[3 := SectionPage("b", 1), 4 := SectionStart(ID, "a")]
    ensures t.generations == map[Key(ID, OnSession) := 1, Key(ID, OnSection) := 1]
    ensures RecordOf(t, ID).sessionStatus == Ready
  {
    var s: State;
    es, s := SecondPage();
    PartGoesOn(s, 1, "a");
    RunOn(INITIAL, es, s, Settle(1, SessionIs(SESSION)));
    es := es + [Settle(1, SessionIs(SESSION))];
    t := Step(s, Settle(1, SessionIs(SESSION)));
  }

  /**
  Two searches everywhere, one after the other, while the session is still being loaded: the part of the first
  one starts last and takes the token, and the section of the second one waits for nothing. No source was reset.
  */
  lemma OlderPartStrandsSection() returns (es: seq<Event>, t: State)
    ensures Runs(INITIAL, es, t) && t.global.query == "b" && Epoch(t, ID) == 0
    ensures Waits(t, ID) && !OwedOk(t, ID)
  {
    var s: State;
    es, s := LateSession();
    OvertakenState(s);
    RunOn(INITIAL, es, s, Settle(4, Done));
    es := es + [Settle(4, Done)];
    t := Step(s, Settle(4, Done));
  }

  lemma OvertakenState(s: State)
    requires Shows(s, "b", 5) && s.calls == map[3 := SectionPage("b", 1), 4 := SectionStart(ID, "a")]
    requires s.generations == map[Key(ID, OnSession) := 1, Key(ID, OnSection) := 1]
    requires RecordOf(s, ID).sessionStatus == Ready
    ensures var t := Step(s, Settle(4, Done));
            t.global.query == "b" && Epoch(t, ID) == 0 && Waits(t, ID) && !OwedOk(t, ID)
  {
    PartAsksPage(s, 4, "a");
    var t := Step(s, Settle(4, Done));
    assert t.calls == map[3 := SectionPage("b", 1), 5 := SectionPage("a", 2)];
  }

  lemma FirstSession() returns (es: seq<Event>, t: State)
    ensures Runs(INITIAL, es, t) && Shows(t, "a", 3) && t.calls == map[2 := SectionStart(ID, "a")]
    ensures t.generations == map[Key(ID, OnSession) := 1] && t.authTimers == map[]
    ensures RecordOf(t, ID).sessionStatus == Ready
  {
    var s: State;
    es, s := FirstSearch();
    PartGoesOn(s, 1, "a");
    RunOn(INITIAL, es, s, Settle(1, SessionIs(SESSION)));
    es := es + [Settle(1, SessionIs(SESSION))];
    t := Step(s, Settle(1, SessionIs(SESSION)));
  }

  lemma FirstPage() returns (es: seq<Event>, t: State)
    ensures Runs(INITIAL, es, t) && Shows(t, "a", 4)
    ensures t.calls == map[3 := SectionPage("a", 1)]
    ensures t.generations == map[Key(ID, OnSession) := 1, Key(ID, OnSection) := 1]
    ensures t.authTimers == map[]
  {
    var s: State;
    es, s := FirstSession();
    FirstPageState(s);
    RunOn(INITIAL, es, s, Settle(2, Done));
    es := es + [Settle(2, Done)];
    t := Step(s, Settle(2, Done));
  }

  lemma FirstPageState(s: State)
    requires Shows(s, "a", 3) && s.calls == map[2 := SectionStart(ID, "a")]
    requires s.generations == map[Key(ID, OnSession) := 1] && s.authTimers == map[]
    requires RecordOf(s, ID).sessionStatus == Ready
    ensures var t := Step(s, Settle(2, Done));
            && Shows(t, "a", 4) && t.calls == map[3 := SectionPage("a", 1)] && t.authTimers == map[]
            && t.generations == map[Key(ID, OnSession) := 1, Key(ID, OnSection) := 1]
  {
    PartAsksPage(s, 2, "a");
  }

  /** A sign-out that succeeds while the section's page is out: the section waits for a page that will be dropped. */
  lemma SignOutStrandsSection() returns (es: seq<Event>, t: State)
    ensures Runs(INITIAL, es, t) && t.global.query == "a" && Epoch(t, ID) == 1
    ensures Waits(t, ID) && !OwedOk(t, ID)
  {
    var s: State;
    es, s := SignOutAsked();
    var last := Settle(4, SessionIs(Session(false, false)));
    RunOn(INITIAL, es, s, last);
    es := es + [last];
    t := Step(s, last);
    SignedOutState(s);
    SignedOutStrands(t);
  }

  lemma SignOutAsked() returns (es: seq<Event>, t: State)
    ensures Runs(INITIAL, es, t) && Shows(t, "a", 5) && t.authTimers == map[]
    ensures t.calls == map[3 := SectionPage("a", 1), 4 := SignOutCall(ID)]
    ensures t.generations == map[Key(ID, OnSession) := 1, Key(ID, OnSection) := 1]
  {
    var s: State;
    es, s := FirstPage();
    RunOn(INITIAL, es, s, SignOut(ID));
    es := es + [SignOut(ID)];
    t := AddCall(s, SignOutCall(ID));
  }

  lemma SignedOutStrands(t: State)
    requires t.calls == map[3 := SectionPage("a", 1)] && t.global == GlobalSearch("a", map[ID := WAITING])
    requires Generation(t, Key(ID, OnSection)) == 2
    ensures Waits(t, ID) && !OwedOk(t, ID)
  {
  }

  lemma SignedOutState(s: State)
    requires s.calls == map[3 := SectionPage("a", 1), 4 := SignOutCall(ID)] && Shows(s, "a", 5) && s.authTimers == map[]
    requires s.generations == map[Key(ID, OnSession) := 1, Key(ID, OnSection) := 1]
    ensures var t := Step(s, Settle(4, SessionIs(Session(false, false))));
            && t.calls == map[3 := SectionPage("a", 1)] && t.global == s.global && Epoch(t, ID) == 1
            && Generation(t, Key(ID, OnSection)) == 2
  {
  }

  const FIRST := Page([Track(ID, "1")], Some("c"))
  const SECOND := Page([Track(ID, "2")], None)
  const FIRST_REQUEST := Request(ID, Search("a"), None, 0)
  const FIRST_LIST := Listing([Track(ID, "1")], Some("c"), [Reply(FIRST_REQUEST, FIRST)])

  lemma QueryAsked() returns (es: seq<Event>, t: State)
    ensures Runs(INITIAL, es, t) && ActiveId(t) == ID && t.nextId == 1 && t.epochs == map[]
    ensures t.calls == map[0 := PageCall(FIRST_REQUEST, false, NO_LISTING, 1)]
    ensures t.generations == map[Key(ID, OnSearch) := 1]
    ensures RecordOf(t, ID) == EMPTY_BROWSE.(searchQuery := "a", searchStatus := Loading)
  {
    TrimLetters();
    var shown := Step(INITIAL, ShowSource(ID));
    assert Runs(INITIAL, [], INITIAL);
    RunOn(INITIAL, [], INITIAL, ShowSource(ID));
    es := [] + [ShowSource(ID)];
    RunOn(INITIAL, es, shown, RunSearch("a", false));
    es := es + [RunSearch("a", false)];
    t := Step(shown, RunSearch("a", false));
    QueryAskedState();
  }

  lemma QueryAskedState()
    ensures var t := Step(Step(INITIAL, ShowSource(ID)), RunSearch("a", false));
            && ActiveId(t) == ID && t.nextId == 1 && t.epochs == map[]
            && t.calls == map[0 := PageCall(FIRST_REQUEST, false, NO_LISTING, 1)]
            && t.generations == map[Key(ID, OnSearch) := 1]
            && RecordOf(t, ID) == EMPTY_BROWSE.(searchQuery := "a", searchStatus := Loading)
  {
    TrimLetters();
  }

  lemma QueryAnswered() returns (es: seq<Event>, t: State)
    ensures Runs(INITIAL, es, t) && ActiveId(t) == ID && t.nextId == 1 && t.epochs == map[]
    ensures t.calls == map[] && t.generations == map[Key(ID, OnSearch) := 1]
    ensures RecordOf(t, ID) == EMPTY_BROWSE.(searchQuery := "a", searchStatus := Ready, search := FIRST_LIST)
  {
    var s: State;
    es, s := QueryAsked();
    RunOn(INITIAL, es, s, Settle(0, PageIs(FIRST)));
    es := es + [Settle(0, PageIs(FIRST))];
    t := Step(s, Settle(0, PageIs(FIRST)));
    assert Extend(NO_LISTING, false, Reply(FIRST_REQUEST, FIRST)) == FIRST_LIST;
  }

  lemma OtherQueryAsked() returns (es: seq<Event>, t: State)
    ensures Runs(INITIAL, es, t) && t.nextId == 2
    ensures t.calls == map[1 := PageCall(Request(ID, Search("b"), Some("c"), 0), true, FIRST_LIST, 2)]
    ensures t.generations == map[Key(ID, OnSearch) := 2] && RecordOf(t, ID).searchQuery == "b"
  {
    TrimLetters();
    var s: State;
    es, s := QueryAnswered();
    RunOn(INITIAL, es, s, RunSearch("b", true));
    es := es + [RunSearch("b", true)];
    t := Step(s, RunSearch("b", true));
  }

  /** A search, and a search for more under another query: the list shown for the second holds a track of the first. */
  lemma QueriesMixed() returns (es: seq<Event>, t: State)
    ensures Runs(INITIAL, es, t)
    ensures var b := RecordOf(t, ID);
            b.searchQuery == "b" && b.search.tracks == [Track(ID, "1"), Track(ID, "2")]
            && b.search.pages != [] && b.search.pages[0].request.feed == Search("a") && !OneQuery(b)
  {
    var s: State;
    es, s := OtherQueryAsked();
    RunOn(INITIAL, es, s, Settle(1, PageIs(SECOND)));
    es := es + [Settle(1, PageIs(SECOND))];
    t := Step(s, Settle(1, PageIs(SECOND)));
    assert RecordOf(t, ID).search == Extend(FIRST_LIST, true, Reply(s.calls[1].request, SECOND));
  }

  // ---------- a section across a sign-out ----------

  const ASKED_FIRST := Request(ID, Section("a"), None, 0)
  const ASKED_THEN := Request(ID, Section("a"), Some("c"), 1)
  const BEFORE := Listing(FIRST.tracks, Some("c"), [Reply(ASKED_FIRST, FIRST)])

  /** The section has its first page, and nothing of it is out. */
  predicate HasFirst(s: State, next: nat) {
    && s.sources == KNOWN.sources && s.nextId == next && s.authTimers == map[]
    && s.view == SearchView && s.active == None
    && s.global == GlobalSearch("a", map[ID := SectionState(Ready, BEFORE)])
  }

  lemma FirstArrived() returns (es: seq<Event>, t: State)
    ensures Runs(INITIAL, es, t) && HasFirst(t, 4) && t.calls == map[] && t.epochs == map[]
    ensures t.generations == map[Key(ID, OnSession) := 1, Key(ID, OnSection) := 1]
  {
    var s: State;
    es, s := FirstPage();
    RunOn(INITIAL, es, s, Settle(3, PageIs(FIRST)));
    es := es + [Settle(3, PageIs(FIRST))];
    t := Step(s, Settle(3, PageIs(FIRST)));
    assert Extend(NO_LISTING, false, Reply(ASKED_FIRST, FIRST)) == BEFORE;
  }

  lemma SignedOutBetween() returns (es: seq<Event>, t: State)
    ensures Runs(INITIAL, es, t) && HasFirst(t, 5) && t.calls == map[] && t.epochs == map[ID := 1]
    ensures t.generations == map[Key(ID, OnSession) := 2, Key(ID, OnSection) := 2]
  {
    var s: State;
    es, s := FirstArrived();
    RunOn(INITIAL, es, s, SignOut(ID));
    es := es + [SignOut(ID)];
    s := AddCall(s, SignOutCall(ID));
    assert s.calls == map[4 := SignOutCall(ID)];
    var last := Settle(4, SessionIs(Session(false, false)));
    RunOn(INITIAL, es, s, last);
    es := es + [last];
    t := Step(s, last);
    ResetShown(s);
  }

  lemma ResetShown(s: State)
    requires HasFirst(s, 5) && s.calls == map[4 := SignOutCall(ID)] && s.epochs == map[]
    requires s.generations == map[Key(ID, OnSession) := 1, Key(ID, OnSection) := 1]
    ensures var t := Step(s, Settle(4, SessionIs(Session(false, false))));
            && HasFirst(t, 5) && t.calls == map[] && t.epochs == map[ID := 1]
            && t.generations == map[Key(ID, OnSession) := 2, Key(ID, OnSection) := 2]
  {
  }

  lemma MoreAsked() returns (es: seq<Event>, t: State)
    ensures Runs(INITIAL, es, t) && t.epochs == map[ID := 1]
    ensures t.calls == map[5 := PageCall(ASKED_THEN, true, BEFORE, 3)] && t.nextId == 6
    ensures t.global == GlobalSearch("a", map[ID := SectionState(Loading, BEFORE)])
    ensures Key(ID, OnSection) in t.generations && t.generations[Key(ID, OnSection)] == 3
  {
    var s: State;
    es, s := SignedOutBetween();
    MoreAskedState(s);
    RunOn(INITIAL, es, s, SearchMoreIn(ID));
    es := es + [SearchMoreIn(ID)];
    t := Step(s, SearchMoreIn(ID));
  }

  lemma MoreAskedState(s: State)
    requires HasFirst(s, 5) && s.calls == map[] && s.epochs == map[ID := 1]
    requires s.generations == map[Key(ID, OnSession) := 2, Key(ID, OnSection) := 2]
    ensures var t := Step(s, SearchMoreIn(ID));
            && t.epochs == map[ID := 1] && t.calls == map[5 := PageCall(ASKED_THEN, true, BEFORE, 3)] && t.nextId == 6
            && t.global == GlobalSearch("a", map[ID := SectionState(Loading, BEFORE)])
            && Key(ID, OnSection) in t.generations && t.generations[Key(ID, OnSection)] == 3
  {
    assert FindSource(KNOWN.sources, ID) == Some(SOURCE);
    SearchSectionShape(s, ID, "a", Some("c"));
  }

  /** A sign-out between two pages of a section: its list goes on, with a page of each session. */
  lemma SessionsMixed() returns (es: seq<Event>, t: State)
    ensures Runs(INITIAL, es, t) && Epoch(t, ID) == 1 && ID in t.global.sections
    ensures var l := t.global.sections[ID].listing;
            && l.tracks == [Track(ID, "1"), Track(ID, "2")] && |l.pages| == 2
            && l.pages[0].request.epoch == 0 && l.pages[1].request.epoch == 1 && !FromEpoch(l, Epoch(t, ID))
  {
    var s: State;
    es, s := MoreAsked();
    RunOn(INITIAL, es, s, Settle(5, PageIs(SECOND)));
    es := es + [Settle(5, PageIs(SECOND))];
    t := Step(s, Settle(5, PageIs(SECOND)));
    assert t.global.sections[ID].listing == Extend(BEFORE, true, Reply(ASKED_THEN, SECOND));
  }
}
