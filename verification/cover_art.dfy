/**
The cache of cover art object URLs: one URL for each song and size, counted by the holders it was given to,
replaced when the picture changes, dropped when its last holder lets go or the song's art is invalidated.
*/
module CoverArt {
  import opened Basics

  datatype Size = Thumb | Preview | Original {
    function Name(): string {
      match this
      case Thumb => "thumb"
      case Preview => "preview"
      case Original => "original"
    }
  }

  datatype Entry = Entry(refs: int, url: nat, digest: string)

  /** The cache, and the browser's side of it: how many URLs it made, which are live, how often each was revoked. */
  datatype State = State(cache: map<string, Entry>, created: nat, live: set<nat>, revoked: multiset<nat>)

  const EMPTY := State(map[], 0, {}, multiset{})

  function CacheKey(song: string, size: Size): string {
    song + ":" + size.Name()
  }

  // ---------- what each operation does ----------

  function Revoke(s: State, url: nat): State {
    s.(live := s.live - {url}, revoked := s.revoked + multiset{url})
  }

  /** A new URL for the key, held once. */
  function Create(s: State, key: string, digest: string): State {
    s.(cache := s.cache[key := Entry(1, s.created, digest)], created := s.created + 1, live := s.live + {s.created})
  }

  /** There is no digest when there are no bytes or the browser makes no object URLs. */
  function Retain(s: State, key: string, digest: Option<string>): (State, Option<nat>) {
    if digest.None? then (s, None)
    else if key !in s.cache then (Create(s, key, digest.value), Some(s.created))
    else if s.cache[key].digest != digest.value then
      (Create(Revoke(s, s.cache[key].url), key, digest.value), Some(s.created))
    else
      (s.(cache := s.cache[key := s.cache[key].(refs := s.cache[key].refs + 1)]), Some(s.cache[key].url))
  }

  function Release(s: State, key: string, url: Option<nat>): State {
    if key !in s.cache || (url.Some? && s.cache[key].url != url.value) then s
    else if s.cache[key].refs - 1 > 0 then
      s.(cache := s.cache[key := s.cache[key].(refs := s.cache[key].refs - 1)])
    else
      Revoke(s, s.cache[key].url).(cache := s.cache - {key})
  }

  predicate IsOfSong(key: string, song: string) {
    song + ":" <= key
  }

  function KeysOf(s: State, song: string): set<string> {
    set key | key in s.cache && IsOfSong(key, song)
  }

  function UrlsAt(cache: map<string, Entry>, keys: set<string>): set<nat> {
    set key | key in keys && key in cache :: cache[key].url
  }

  /** The keys are gone, and their URLs revoked. */
  function Drop(s: State, keys: set<string>): State {
    s.(cache := s.cache - keys, live := s.live - UrlsAt(s.cache, keys),
       revoked := s.revoked + multiset(UrlsAt(s.cache, keys)))
  }

  function Invalidate(s: State, song: string): State {
    Drop(s, KeysOf(s, song))
  }

  // ---------- the URLs ----------

  ghost predicate Distinct(cache: map<string, Entry>) {
    forall j, k | j in cache && k in cache && cache[j].url == cache[k].url :: j == k
  }

  /** The live URLs are the cached ones, each cached once, and every other one made was revoked once. */
  ghost predicate UrlsOk(s: State) {
    && Distinct(s.cache)
    && (forall k | k in s.cache :: s.cache[k].refs >= 1 && s.cache[k].url < s.created)
    && s.live == UrlsAt(s.cache, s.cache.Keys)
    && (forall url: nat :: s.revoked[url] == if url < s.created && url !in s.live then 1 else 0)
  }

  predicate SameEntry(before: map<string, Entry>, after: map<string, Entry>, key: string) {
    (key in before <==> key in after) && (key in before ==> after[key] == before[key])
  }

  class CoverArtUrlCache {
    var coverArtUrlCache: map<string, Entry>
    var created: nat
    var live: set<nat>
    var revoked: multiset<nat>

    ghost function Now(): State
      reads this
    {
      State(coverArtUrlCache, created, live, revoked)
    }

    /** The live URLs are the cached ones, each cached once, and every other one made was revoked once. */
    ghost predicate Valid()
      reads this
    {
      UrlsOk(Now())
    }

    constructor ()
      ensures Valid() && Now() == EMPTY
    {
      coverArtUrlCache, created, live, revoked := map[], 0, {}, multiset{};
    }

    method CreateObjectUrl() returns (url: nat)
      modifies this`created, this`live
      ensures url == old(created) && created == old(created) + 1 && live == old(live) + {url}
    {
      url := created;
      created := created + 1;
      live := live + {url};
    }

    method RevokeObjectUrl(url: nat)
      modifies this`live, this`revoked
      ensures live == old(live) - {url} && revoked == old(revoked) + multiset{url}
    {
      live := live - {url};
      revoked := revoked + multiset{url};
    }

    /**
    The URL given is live and cached under the key, for one holder more than before or, if the
    picture changed, for one.
    */
    method RetainCoverArtUrl(song: string, size: Size, digest: Option<string>) returns (url: Option<nat>)
      requires Valid()
      modifies this
      ensures Valid() && (Now(), url) == Retain(old(Now()), CacheKey(song, size), digest)
      ensures url.None? <==> digest.None?
      ensures var key := CacheKey(song, size); var was := old(coverArtUrlCache);
              url.Some? ==>
                && url.value in live && key in coverArtUrlCache && coverArtUrlCache[key].url == url.value
                && (if key in was && was[key].digest == digest.value
                    then url.value == was[key].url && coverArtUrlCache[key].refs == was[key].refs + 1
                    else url.value !in old(live) && coverArtUrlCache[key].refs == 1)
                && (key in was && was[key].digest != digest.value ==> was[key].url !in live)
                && coverArtUrlCache[key].digest == digest.value
      ensures forall other | other != CacheKey(song, size) :: SameEntry(old(coverArtUrlCache), coverArtUrlCache, other)
      ensures url.None? ==> Now() == old(Now())
    {
      RetainKeepsUrls(Now(), CacheKey(song, size), digest);
      if digest.Some? {
        RetainedEntry(Now(), CacheKey(song, size), digest.value);
      }
      url := Cached(song, size, digest);
    }

    method Cached(song: string, size: Size, digest: Option<string>) returns (url: Option<nat>)
      modifies this
      ensures (Now(), url) == Retain(old(Now()), CacheKey(song, size), digest)
    {
      if digest.None? {
        return None;
      }
      var key := CacheKey(song, size);
      if key in coverArtUrlCache {
        var cached := coverArtUrlCache[key];
        if cached.digest != digest.value {
          RevokeObjectUrl(cached.url);
          var replacement := CreateObjectUrl();
          coverArtUrlCache := coverArtUrlCache[key := Entry(1, replacement, digest.value)];
          return Some(replacement);
        }
        coverArtUrlCache := coverArtUrlCache[key := cached.(refs := cached.refs + 1)];
        return Some(cached.url);
      }
      var first := CreateObjectUrl();
      coverArtUrlCache := coverArtUrlCache[key := Entry(1, first, digest.value)];
      url := Some(first);
    }

    /** A URL that is no longer live is let go without effect; the last holder's is revoked. */
    method ReleaseCoverArtUrl(song: string, size: Size, url: Option<nat>)
      requires Valid()
      modifies this
      ensures Valid() && Now() == Release(old(Now()), CacheKey(song, size), url)
      ensures url.Some? && url.value !in old(live) ==> Now() == old(Now())
      ensures forall other <- old(live) - live ::
                && CacheKey(song, size) in old(coverArtUrlCache)
                && other == old(coverArtUrlCache)[CacheKey(song, size)].url
                && old(coverArtUrlCache)[CacheKey(song, size)].refs == 1
      ensures var key := CacheKey(song, size); var was := old(coverArtUrlCache);
              key in was && (url.Some? ==> was[key].url == url.value) ==>
                if was[key].refs == 1 then key !in coverArtUrlCache && was[key].url !in live
                else key in coverArtUrlCache && coverArtUrlCache[key] == was[key].(refs := was[key].refs - 1)
      ensures forall other | other != CacheKey(song, size) :: SameEntry(old(coverArtUrlCache), coverArtUrlCache, other)
    {
      ReleaseKeepsUrls(Now(), CacheKey(song, size), url);
      var key := CacheKey(song, size);
      if key !in coverArtUrlCache {
        return;
      }
      var cached := coverArtUrlCache[key];
      if url.Some? && cached.url != url.value {
        return;
      }
      if cached.refs - 1 > 0 {
        coverArtUrlCache := coverArtUrlCache[key := cached.(refs := cached.refs - 1)];
        return;
      }
      RevokeObjectUrl(cached.url);
      coverArtUrlCache := coverArtUrlCache - {key};
    }

    /** The song's entries are gone and their URLs revoked; every other entry stays, its URL live. */
    method InvalidateCoverArtUrl(song: string)
      requires Valid()
      modifies this
      ensures Valid() && Now() == Invalidate(old(Now()), song)
      ensures forall key <- coverArtUrlCache :: !IsOfSong(key, song) && coverArtUrlCache[key].url in live
      ensures forall key <- old(coverArtUrlCache) ::
                if IsOfSong(key, song) then old(coverArtUrlCache)[key].url !in live
                else key in coverArtUrlCache && coverArtUrlCache[key] == old(coverArtUrlCache)[key]
    {
      DropKeepsUrls(Now(), KeysOf(Now(), song));
      DroppedExactly(Now(), KeysOf(Now(), song));
      SweepAll(song);
    }

    method SweepAll(song: string)
      requires Valid()
      modifies this
      ensures Now() == Invalidate(old(Now()), song)
    {
      ghost var was := Now();
      var rest := coverArtUrlCache.Keys;
      DropNone(was);
      assert KeysOf(was, song) - rest == {};
      while rest != {}
        invariant rest <= was.cache.Keys
        invariant Now() == Drop(was, KeysOf(was, song) - rest)
        decreases |rest|
      {
        var key :| key in rest;
        Sweep(was, song, rest, key);
        rest := rest - {key};
        if IsOfSong(key, song) {
          DropEntry(key);
        }
      }
      assert KeysOf(was, song) - {} == KeysOf(was, song);
    }

    method DropEntry(key: string)
      requires key in coverArtUrlCache
      modifies this
      ensures Now() == Revoke(old(Now()), old(coverArtUrlCache)[key].url).(cache := old(coverArtUrlCache) - {key})
    {
      RevokeObjectUrl(coverArtUrlCache[key].url);
      coverArtUrlCache := coverArtUrlCache - {key};
    }
  }

  /** One more key looked at: dropped if it is the song's. */
  lemma Sweep(s: State, song: string, rest: set<string>, key: string)
    requires UrlsOk(s) && rest <= s.cache.Keys && key in rest
    ensures var t := Drop(s, KeysOf(s, song) - rest);
            && key in t.cache
            && Drop(s, KeysOf(s, song) - (rest - {key}))
               == if IsOfSong(key, song) then Revoke(t, t.cache[key].url).(cache := t.cache - {key}) else t
  {
    var gone := KeysOf(s, song) - rest;
    DropOneMore(s, gone, key);
    if IsOfSong(key, song) {
      assert KeysOf(s, song) - (rest - {key}) == gone + {key};
    } else {
      assert KeysOf(s, song) - (rest - {key}) == gone;
    }
  }

  lemma DropNone(s: State)
    ensures Drop(s, {}) == s
  {
    assert UrlsAt(s.cache, {}) == {};
  }

  lemma UrlsOfOneMore(cache: map<string, Entry>, keys: set<string>, key: string)
    requires Distinct(cache) && key in cache && key !in keys && keys <= cache.Keys
    ensures UrlsAt(cache, keys + {key}) == UrlsAt(cache, keys) + {cache[key].url}
    ensures cache[key].url !in UrlsAt(cache, keys)
  {
  }

  lemma MultisetOfOneMore(urls: set<nat>, url: nat)
    requires url !in urls
    ensures multiset(urls + {url}) == multiset(urls) + multiset{url}
  {
  }

  lemma DropOneMore(s: State, keys: set<string>, key: string)
    requires Distinct(s.cache) && key in s.cache && key !in keys && keys <= s.cache.Keys
    ensures var t := Drop(s, keys);
            && key in t.cache && t.cache[key] == s.cache[key]
            && Drop(s, keys + {key}) == Revoke(t, s.cache[key].url).(cache := t.cache - {key})
  {
    UrlsOfOneMore(s.cache, keys, key);
    MultisetOfOneMore(UrlsAt(s.cache, keys), s.cache[key].url);
    assert s.cache - (keys + {key}) == s.cache - keys - {key};
  }

  lemma DropKeepsUrls(s: State, keys: set<string>)
    requires UrlsOk(s) && keys <= s.cache.Keys
    ensures UrlsOk(Drop(s, keys))
  {
    var t := Drop(s, keys);
    forall url | url in t.live ensures url in UrlsAt(t.cache, t.cache.Keys) {
      var k :| k in s.cache && s.cache[k].url == url;
      assert k in t.cache && t.cache[k].url == url;
    }
    forall k | k in t.cache ensures t.cache[k].url in t.live {
      assert s.cache[k].url in s.live;
    }
  }

  lemma DroppedExactly(s: State, keys: set<string>)
    requires UrlsOk(s) && keys <= s.cache.Keys
    ensures var t := Drop(s, keys);
            && (forall key <- t.cache :: key !in keys && t.cache[key].url in t.live)
            && (forall key <- s.cache ::
                  if key in keys then s.cache[key].url !in t.live else key in t.cache && t.cache[key] == s.cache[key])
  {
    DropKeepsUrls(s, keys);
    var t := Drop(s, keys);
    forall key <- s.cache | key in keys ensures s.cache[key].url !in t.live {
      assert s.cache[key].url in UrlsAt(s.cache, keys);
    }
  }

  /** One more holder or one less, while one is left, leaves the URLs alone. */
  lemma RefsKeepUrls(s: State, key: string, refs: nat)
    requires UrlsOk(s) && key in s.cache && refs >= 1
    ensures UrlsOk(s.(cache := s.cache[key := s.cache[key].(refs := refs)]))
  {
    var after := s.cache[key := s.cache[key].(refs := refs)];
    forall k | k in s.cache ensures k in after && after[k].url == s.cache[k].url {
    }
    SameUrls(s.cache, after);
  }

  lemma SameUrls(cache: map<string, Entry>, after: map<string, Entry>)
    requires after.Keys == cache.Keys && forall k | k in cache :: after[k].url == cache[k].url
    ensures UrlsAt(after, after.Keys) == UrlsAt(cache, cache.Keys)
  {
    forall url | url in UrlsAt(cache, cache.Keys) ensures url in UrlsAt(after, after.Keys) {
      var k :| k in cache && cache[k].url == url;
      assert k in after && after[k].url == url;
    }
    forall url | url in UrlsAt(after, after.Keys) ensures url in UrlsAt(cache, cache.Keys) {
      var k :| k in after && after[k].url == url;
      assert k in cache && cache[k].url == url;
    }
  }

  /** A new URL under a new key. */
  lemma CreateKeepsUrls(s: State, key: string, digest: string)
    requires UrlsOk(s) && key !in s.cache
    ensures UrlsOk(Create(s, key, digest))
  {
    var t := Create(s, key, digest);
    NewUrl(s.cache, key, Entry(1, s.created, digest));
    forall j, k | j in t.cache && k in t.cache && t.cache[j].url == t.cache[k].url ensures j == k {
      assert j != key ==> t.cache[j] == s.cache[j];
      assert k != key ==> t.cache[k] == s.cache[k];
    }
  }

  lemma NewUrl(cache: map<string, Entry>, key: string, entry: Entry)
    requires key !in cache
    ensures var after := cache[key := entry]; UrlsAt(after, after.Keys) == UrlsAt(cache, cache.Keys) + {entry.url}
  {
    var after := cache[key := entry];
    forall url | url in UrlsAt(cache, cache.Keys) + {entry.url} ensures url in UrlsAt(after, after.Keys) {
      if url == entry.url {
        assert key in after && after[key].url == url;
      } else {
        var k :| k in cache && cache[k].url == url;
        assert k in after && after[k].url == url;
      }
    }
    forall url | url in UrlsAt(after, after.Keys) ensures url in UrlsAt(cache, cache.Keys) + {entry.url} {
      var k :| k in after && after[k].url == url;
      assert k != key ==> k in cache && cache[k].url == url;
    }
  }

  lemma DropOne(s: State, key: string)
    requires key in s.cache
    ensures Revoke(s, s.cache[key].url).(cache := s.cache - {key}) == Drop(s, {key})
  {
    assert UrlsAt(s.cache, {key}) == {s.cache[key].url};
  }

  /** A replaced picture: the old entry goes, and a new one is made in its place. */
  lemma ReplaceKeepsUrls(s: State, key: string, digest: string)
    requires UrlsOk(s) && key in s.cache
    ensures UrlsOk(Create(Revoke(s, s.cache[key].url), key, digest))
  {
    var gone := Revoke(s, s.cache[key].url).(cache := s.cache - {key});
    DropOne(s, key);
    DropKeepsUrls(s, {key});
    CreateKeepsUrls(gone, key, digest);
    assert (s.cache - {key})[key := Entry(1, s.created, digest)] == s.cache[key := Entry(1, s.created, digest)];
  }

  lemma RetainKeepsUrls(s: State, key: string, digest: Option<string>)
    requires UrlsOk(s)
    ensures UrlsOk(Retain(s, key, digest).0)
  {
    if digest.Some? {
      if key !in s.cache {
        CreateKeepsUrls(s, key, digest.value);
      } else if s.cache[key].digest != digest.value {
        ReplaceKeepsUrls(s, key, digest.value);
      } else {
        RefsKeepUrls(s, key, s.cache[key].refs + 1);
      }
    }
  }

  lemma ReleaseKeepsUrls(s: State, key: string, url: Option<nat>)
    requires UrlsOk(s)
    ensures UrlsOk(Release(s, key, url))
  {
    if key in s.cache && !(url.Some? && s.cache[key].url != url.value) {
      if s.cache[key].refs - 1 > 0 {
        RefsKeepUrls(s, key, s.cache[key].refs - 1);
      } else {
        DropOne(s, key);
        DropKeepsUrls(s, {key});
      }
    }
  }

  /** What a retain leaves: the URL given is live and the key's; a picture that changed has a new one. */
  lemma RetainedEntry(s: State, key: string, digest: string)
    requires UrlsOk(s)
    ensures var (t, url) := Retain(s, key, Some(digest));
            && url.Some? && key in t.cache && t.cache[key].url == url.value && url.value in t.live
            && (if key in s.cache && s.cache[key].digest == digest
                then url.value == s.cache[key].url && t.cache[key].refs == s.cache[key].refs + 1
                else url.value == s.created && t.cache[key].refs == 1)
            && (key in s.cache && s.cache[key].digest != digest ==> s.cache[key].url !in t.live)
  {
  }

  // ---------- the holders ----------

  /** Who asked under which key, and the URL they were given. */
  datatype Hold = Hold(key: string, url: nat)

  datatype World = World(state: State, holds: multiset<Hold>)

  /** `Release` is one holder letting go of the URL it was given. */
  datatype Event =
    | Retains(song: string, size: Size, digest: Option<string>)
    | Releases(song: string, size: Size, url: nat)
    | Invalidates(song: string)

  predicate Possible(w: World, e: Event) {
    e.Releases? ==> Hold(CacheKey(e.song, e.size), e.url) in w.holds
  }

  function Step(w: World, e: Event): World {
    match e
    case Retains(song, size, digest) => Retained(w, CacheKey(song, size), digest)
    case Releases(song, size, url) => Released(w, CacheKey(song, size), url)
    case Invalidates(song) => World(Invalidate(w.state, song), w.holds)
  }

  /** Every entry counts its holders, and nobody holds another key's URL. */
  ghost predicate CountsOk(w: World) {
    && (forall k | k in w.state.cache :: w.state.cache[k].refs == w.holds[Hold(k, w.state.cache[k].url)])
    && (forall h <- w.holds :: h.url < w.state.created)
    && (forall h, k | h in w.holds && k in w.state.cache && w.state.cache[k].url == h.url :: k == h.key)
  }

  function Retained(w: World, key: string, digest: Option<string>): World {
    var (state, url) := Retain(w.state, key, digest);
    World(state, if url.Some? then w.holds + multiset{Hold(key, url.value)} else w.holds)
  }

  function Released(w: World, key: string, url: nat): World {
    World(Release(w.state, key, Some(url)), w.holds - multiset{Hold(key, url)})
  }

  /** Nobody holds a URL that is still to be made, so a new entry's first holder is its only one. */
  lemma NewHolder(w: World, key: string, digest: Option<string>)
    requires CountsOk(w) && UrlsOk(w.state) && digest.Some?
    requires key !in w.state.cache || w.state.cache[key].digest != digest.value
    ensures CountsOk(Retained(w, key, digest))
  {
    var v := Retained(w, key, digest);
    var given := Hold(key, w.state.created);
    assert given !in w.holds;
    forall k | k in v.state.cache ensures v.state.cache[k].refs == v.holds[Hold(k, v.state.cache[k].url)] {
      assert k != key ==> v.state.cache[k] == w.state.cache[k];
    }
    forall h, k | h in v.holds && k in v.state.cache && v.state.cache[k].url == h.url ensures k == h.key {
      assert k != key ==> v.state.cache[k] == w.state.cache[k];
      assert h != given ==> h in w.holds;
    }
  }

  lemma OneMoreHolder(w: World, key: string, digest: Option<string>)
    requires CountsOk(w) && UrlsOk(w.state) && digest.Some?
    requires key in w.state.cache && w.state.cache[key].digest == digest.value
    ensures CountsOk(Retained(w, key, digest))
  {
    var v := Retained(w, key, digest);
    var held := Hold(key, w.state.cache[key].url);
    forall k | k in v.state.cache ensures v.state.cache[k].refs == v.holds[Hold(k, v.state.cache[k].url)] {
      assert k != key ==> v.state.cache[k] == w.state.cache[k];
    }
    forall h, k | h in v.holds && k in v.state.cache && v.state.cache[k].url == h.url ensures k == h.key {
      assert v.state.cache[k].url == w.state.cache[k].url;
      assert h != held ==> h in w.holds;
    }
  }

  lemma RetainKeepsCounts(w: World, key: string, digest: Option<string>)
    requires UrlsOk(w.state) && CountsOk(w)
    ensures CountsOk(Retained(w, key, digest))
  {
    if digest.Some? {
      if key in w.state.cache && w.state.cache[key].digest == digest.value {
        OneMoreHolder(w, key, digest);
      } else {
        NewHolder(w, key, digest);
      }
    }
  }

  lemma ReleaseKeepsCounts(w: World, key: string, url: nat)
    requires UrlsOk(w.state) && CountsOk(w) && Hold(key, url) in w.holds
    ensures CountsOk(Released(w, key, url))
  {
    var v := Released(w, key, url);
    var held := Hold(key, url);
    forall k | k in v.state.cache ensures v.state.cache[k].refs == v.holds[Hold(k, v.state.cache[k].url)] {
      assert k in w.state.cache && w.state.cache[k].url == v.state.cache[k].url;
      var other := Hold(k, v.state.cache[k].url);
      assert other != held ==> v.holds[other] == w.holds[other];
    }
    forall h, k | h in v.holds && k in v.state.cache && v.state.cache[k].url == h.url ensures k == h.key {
      assert h in w.holds && k in w.state.cache && w.state.cache[k].url == h.url;
    }
  }

  lemma StepKeeps(w: World, e: Event)
    requires UrlsOk(w.state) && CountsOk(w) && Possible(w, e)
    ensures UrlsOk(Step(w, e).state) && CountsOk(Step(w, e))
  {
    match e {
      case Retains(song, size, digest) =>
        RetainKeepsUrls(w.state, CacheKey(song, size), digest);
        RetainKeepsCounts(w, CacheKey(song, size), digest);
      case Releases(song, size, url) =>
        ReleaseKeepsUrls(w.state, CacheKey(song, size), Some(url));
        ReleaseKeepsCounts(w, CacheKey(song, size), url);
      case Invalidates(song) =>
        DropKeepsUrls(w.state, KeysOf(w.state, song));
    }
  }

  ghost predicate Runs(w: World, es: seq<Event>, v: World)
    decreases |es|
  {
    if es == [] then w == v else Possible(w, es[0]) && Runs(Step(w, es[0]), es[1..], v)
  }

  lemma {:induction false} RunKeeps(w: World, es: seq<Event>, v: World)
    requires UrlsOk(w.state) && CountsOk(w) && Runs(w, es, v)
    ensures UrlsOk(v.state) && CountsOk(v)
    decreases |es|
  {
    if es != [] {
      StepKeeps(w, es[0]);
      RunKeeps(Step(w, es[0]), es[1..], v);
    }
  }

  const START := World(EMPTY, multiset{})

  // ---------- over every run ----------

  /** Counts are outstanding holders, live URLs are the cached ones, and none is ever revoked twice. */
  lemma CountsAreHolders(es: seq<Event>, w: World)
    requires Runs(START, es, w)
    ensures forall k | k in w.state.cache :: w.state.cache[k].refs == w.holds[Hold(k, w.state.cache[k].url)] >= 1
    ensures w.state.live == (set k | k in w.state.cache :: w.state.cache[k].url)
    ensures forall url: nat :: w.state.revoked[url] <= 1
    ensures forall url: nat :: url in w.state.live ==> w.state.revoked[url] == 0
  {
    RunKeeps(START, es, w);
  }

  /** A held URL is live exactly while its key still caches it: replacing and invalidating are what ends it early. */
  lemma HeldAndLive(es: seq<Event>, w: World, h: Hold)
    requires Runs(START, es, w) && h in w.holds
    ensures h.url in w.state.live <==> h.key in w.state.cache && w.state.cache[h.key].url == h.url
  {
    RunKeeps(START, es, w);
  }

  /** A holder whose URL was replaced or invalidated lets go without touching anything. */
  lemma StaleHolderChangesNothing(es: seq<Event>, w: World, song: string, size: Size, url: nat)
    requires Runs(START, es, w) && Possible(w, Releases(song, size, url))
    ensures Step(w, Releases(song, size, url)).state == w.state <==> url !in w.state.live
  {
    RunKeeps(START, es, w);
    var key := CacheKey(song, size);
    HeldAndLive(es, w, Hold(key, url));
    if url in w.state.live {
      var t := Release(w.state, key, Some(url));
      assert key in t.cache ==> t.cache[key].refs != w.state.cache[key].refs;
    }
  }

  /** Once every holder has let go nothing is cached, and every URL made was revoked exactly once. */
  lemma NothingLeaks(es: seq<Event>, w: World)
    requires Runs(START, es, w) && w.holds == multiset{}
    ensures w.state.cache == map[] && w.state.live == {}
    ensures forall url: nat :: w.state.revoked[url] == if url < w.state.created then 1 else 0
  {
    RunKeeps(START, es, w);
    assert w.state.cache.Keys == {};
  }

  /** A prefix that ends in a colon ends at the joining colon or before it, if what follows that has none. */
  lemma EndsByColon(song: string, other: string, name: string)
    requires ':' !in name && song + ":" <= other + ":" + name
    ensures |song| <= |other|
  {
    var key := other + ":" + name;
    assert key[|song|] == (song + ":")[|song|] == ':';
    assert forall i | |other| < i < |key| :: key[i] == name[i - |other| - 1] && name[i - |other| - 1] in name;
  }

  lemma PrefixGoesOn(start: string, middle: string, end: string)
    requires start <= middle
    ensures start <= middle + end
  {
    assert (middle + end)[..|start|] == middle[..|start|];
  }

  lemma PrefixOfJoined(song: string, other: string, name: string)
    requires ':' !in name
    ensures song + ":" <= other + ":" + name <==> other == song || song + ":" <= other
  {
    if song + ":" <= other + ":" + name {
      EndsByColon(song, other, name);
      var n := |song| + 1;
      assert (other + ":" + name)[..n] == (other + ":")[..n];
      if n <= |other| {
        assert (other + ":")[..n] == other[..n];
      } else {
        assert (song + ":")[..n - 1] == song && (other + ":")[..n - 1] == other;
      }
    }
    if song + ":" <= other {
      PrefixGoesOn(song + ":", other, ":");
      PrefixGoesOn(song + ":", other + ":", name);
    }
  }

  /** The last colon of a key is the one behind its song. */
  lemma LastColon(song: string, size: Size)
    ensures var key := CacheKey(song, size);
            && |song| < |key| && key[|song|] == ':' && key[..|song|] == song && key[|song| + 1..] == size.Name()
            && forall k | |song| < k < |key| :: key[k] != ':'
  {
    var key := CacheKey(song, size);
    assert ':' !in size.Name();
    forall k | |song| < k < |key| ensures key[k] != ':' {
      assert key[k] == size.Name()[k - |song| - 1];
    }
  }

  /** No two songs or sizes share a key, whatever characters their hashes hold. */
  lemma KeysAreUnique(song: string, size: Size, other: string, otherSize: Size)
    requires CacheKey(song, size) == CacheKey(other, otherSize)
    ensures song == other && size == otherSize
  {
    LastColon(song, size);
    LastColon(other, otherSize);
    assert |song| == |other|;
  }

  /** Invalidating a song drops its own sizes, and those of the songs whose hash goes on from its own with a colon. */
  lemma InvalidatesExactly(song: string, other: string, size: Size)
    ensures IsOfSong(CacheKey(other, size), song) <==> other == song || song + ":" <= other
  {
    assert ':' !in size.Name();
    PrefixOfJoined(song, other, size.Name());
  }

  lemma ColonIn(song: string, other: string)
    ensures song + ":" <= other ==> ':' in other
  {
    assert song + ":" <= other ==> other[|song|] == (song + ":")[|song|] && other[|song|] in other;
  }

  /** So no other song's, as long as no hash contains a colon. */
  lemma InvalidatesOnlyTheSong(song: string, other: string, size: Size)
    requires ':' !in other
    ensures IsOfSong(CacheKey(other, size), song) <==> other == song
  {
    InvalidatesExactly(song, other, size);
    ColonIn(song, other);
  }

  /** Letting go without naming the URL is the same as naming it exactly when the holder is not stale. */
  lemma NamelessReleaseExactlyWhen(es: seq<Event>, w: World, song: string, size: Size, url: nat)
    requires Runs(START, es, w) && Possible(w, Releases(song, size, url))
    ensures Release(w.state, CacheKey(song, size), None) == Release(w.state, CacheKey(song, size), Some(url))
            <==> CacheKey(song, size) !in w.state.cache || url in w.state.live
  {
    RunKeeps(START, es, w);
    var key := CacheKey(song, size);
    HeldAndLive(es, w, Hold(key, url));
    if key in w.state.cache && url !in w.state.live {
      var t := Release(w.state, key, None);
      assert key in t.cache ==> t.cache[key].refs != w.state.cache[key].refs;
    }
  }

  /**
  Such a run: the picture of a song changes between two holders, and the first one lets go without naming its
  URL. The second one's URL is revoked while it is held.
  */
  lemma NamelessReleaseRevokesHeld(song: string)
    ensures var key := CacheKey(song, Thumb);
            var w := Step(Step(START, Retains(song, Thumb, Some("1"))), Retains(song, Thumb, Some("2")));
            && Runs(START, [Retains(song, Thumb, Some("1")), Retains(song, Thumb, Some("2"))], w)
            && Possible(w, Releases(song, Thumb, 0)) && Hold(key, 1) in w.holds && 1 in w.state.live
            && 1 !in Release(w.state, key, None).live && Release(w.state, key, Some(0)) == w.state
  {
    var es := [Retains(song, Thumb, Some("1")), Retains(song, Thumb, Some("2"))];
    var v := Step(START, es[0]);
    assert "1"[0] != "2"[0];
    assert v.state.cache == map[CacheKey(song, Thumb) := Entry(1, 0, "1")];
    var w := Step(v, es[1]);
    assert w.state.cache == map[CacheKey(song, Thumb) := Entry(1, 1, "2")];
    assert es[1..] == [es[1]] && es[1..][1..] == [];
    assert Runs(w, [], w) && Runs(v, es[1..], w);
  }
}
