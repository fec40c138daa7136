/** The library's sort orders, and the decorated form in which the list is really sorted. */
module SongSort {
  import opened Basics
  import opened Ordering

  /** A number as the runtime stores it; what is not finite counts as zero. */
  datatype Number = Finite(value: real) | NotFinite

  datatype Song = Song(hash: string, title: Option<string>, artist: Option<string>, importedAt: Number)
  datatype Mode = RecentlyImported | TitleAsc | ArtistAsc

  const BUCKETS := 27
  /** The bucket of everything that starts with no letter, and of missing keys. */
  const HASH_BUCKET := 26

  /**
  The parts of the platform the order rests on: canonical composition, the collator, the first grapheme of a text,
  whether one is in the Han script, the pinyin initial of a Han character, a grapheme decomposed and without its
  marks, and the upper case of a character.
  */
  datatype Locale = Locale(
    compose: string -> string, collate: (string, string) -> int, grapheme: string -> string, isHan: string -> bool,
    initial: char -> Option<char>, base: string -> string, upper: char -> string)

  function Normal(l: Locale, s: string): string {
    Trim(l.compose(s))
  }

  function Collate(l: Locale): Comparator<string> {
    (a, b) => l.collate(a, b) as real
  }

  /** What the platform promises of them. */
  ghost predicate Lawful(l: Locale) {
    && (forall s :: Normal(l, Normal(l, s)) == Normal(l, s))
    && WeakOrder(Collate(l))
  }

  function NormalizeKey(l: Locale, value: Option<string>): Option<string> {
    if value.None? || Normal(l, value.value) == "" then None else Some(Normal(l, value.value))
  }

  function LetterOrHash(c: char): (b: nat)
    ensures b < BUCKETS
  {
    if 'A' <= c <= 'Z' then c as int - 'A' as int else HASH_BUCKET
  }

  /** The bucket of a text's first grapheme. */
  function FirstLetter(l: Locale, text: string): (b: nat)
    ensures b < BUCKETS
  {
    var grapheme := l.grapheme(text);
    if grapheme == "" then HASH_BUCKET
    else if l.isHan(grapheme) then
      var initial := l.initial(grapheme[0]);
      if initial.Some? then LetterOrHash(initial.value) else HASH_BUCKET
    else
      var base := l.base(grapheme);
      if base == "" || |l.upper(base[0])| != 1 then HASH_BUCKET else LetterOrHash(l.upper(base[0])[0])
  }

  /** The bucket of a raw or a normalized key. */
  function BucketForSortKey(l: Locale, value: Option<string>): (b: nat)
    ensures b < BUCKETS
  {
    if value.None? || Normal(l, value.value) == "" then HASH_BUCKET else FirstLetter(l, Normal(l, value.value))
  }

  /**
  The letter a text stands under: the initial of its Han character, or its first character
  without marks, in capitals.
  */
  predicate StandsUnder(l: Locale, text: string, letter: char) {
    var grapheme := l.grapheme(text);
    && 'A' <= letter <= 'Z' && grapheme != ""
    && if l.isHan(grapheme) then l.initial(grapheme[0]) == Some(letter)
       else l.base(grapheme) != "" && l.upper(l.base(grapheme)[0]) == [letter]
  }

  /** The text left of a key once it is composed and trimmed; a missing or blank key has none. */
  predicate HasText(l: Locale, value: Option<string>, text: string) {
    value.Some? && text == Trim(l.compose(value.value)) && text != ""
  }

  predicate IsBlank(l: Locale, value: Option<string>) {
    value.Some? ==> Trim(l.compose(value.value)) == ""
  }

  /** A key is in the bucket of the letter its text stands under, and in the last one if there is no such letter. */
  lemma BucketExactlyWhen(l: Locale, value: Option<string>, letter: char)
    requires 'A' <= letter <= 'Z'
    ensures BucketForSortKey(l, value) == letter as int - 'A' as int
       <==> exists text :: HasText(l, value, text) && StandsUnder(l, text, letter)
    ensures IsBlank(l, value) ==> BucketForSortKey(l, value) == HASH_BUCKET
  {
    if !IsBlank(l, value) {
      var text := Trim(l.compose(value.value));
      assert HasText(l, value, text);
      LetterExactlyWhen(l, text, letter);
    }
  }

  lemma LetterExactlyWhen(l: Locale, text: string, letter: char)
    requires 'A' <= letter <= 'Z'
    ensures FirstLetter(l, text) == letter as int - 'A' as int <==> StandsUnder(l, text, letter)
  {
    var grapheme := l.grapheme(text);
    if grapheme != "" && l.isHan(grapheme) {
      if l.initial(grapheme[0]).Some? {
        SameLetter(l.initial(grapheme[0]).value, letter);
      }
    } else if grapheme != "" && l.base(grapheme) != "" && |l.upper(l.base(grapheme)[0])| == 1 {
      var upper := l.upper(l.base(grapheme)[0]);
      assert upper == [upper[0]];
      SameLetter(upper[0], letter);
    }
  }

  lemma SameLetter(c: char, letter: char)
    requires 'A' <= letter <= 'Z'
    ensures LetterOrHash(c) == letter as int - 'A' as int <==> c == letter
  {
  }

  // ---------- the comparator ----------

  function CompareTextKeys(l: Locale, a: Option<string>, b: Option<string>, useBuckets: bool): real {
    var aKey := NormalizeKey(l, a);
    var bKey := NormalizeKey(l, b);
    if aKey.None? && bKey.None? then 0.0
    else if aKey.None? then 1.0
    else if bKey.None? then -1.0
    else
      var bucketDiff := BucketForSortKey(l, aKey) - BucketForSortKey(l, bKey);
      if useBuckets && bucketDiff != 0 then bucketDiff as real
      else l.collate(aKey.value, bKey.value) as real
  }

  function FiniteOrZero(n: Number): real {
    if n.Finite? then n.value else 0.0
  }

  function ImportedAtDescending(a: Number, b: Number): real {
    var aMs := FiniteOrZero(a);
    var bMs := FiniteOrZero(b);
    if aMs == bMs then 0.0 else bMs - aMs
  }

  function CompareSongs(l: Locale, mode: Mode, a: Song, b: Song): real {
    var byImported := ImportedAtDescending(a.importedAt, b.importedAt);
    match mode
    case RecentlyImported =>
      var byTitle := CompareTextKeys(l, a.title, b.title, false);
      var byArtist := CompareTextKeys(l, a.artist, b.artist, false);
      if byImported != 0.0 then byImported
      else if byTitle != 0.0 then byTitle
      else if byArtist != 0.0 then byArtist
      else CompareStrings(a.hash, b.hash)
    case TitleAsc =>
      var byTitle := CompareTextKeys(l, a.title, b.title, true);
      var byArtist := CompareTextKeys(l, a.artist, b.artist, false);
      if byTitle != 0.0 then byTitle
      else if byArtist != 0.0 then byArtist
      else if byImported != 0.0 then byImported
      else CompareStrings(a.hash, b.hash)
    case ArtistAsc =>
      var byArtist := CompareTextKeys(l, a.artist, b.artist, true);
      var byTitle := CompareTextKeys(l, a.title, b.title, false);
      if byArtist != 0.0 then byArtist
      else if byTitle != 0.0 then byTitle
      else if byImported != 0.0 then byImported
      else CompareStrings(a.hash, b.hash)
  }

  function SongOrder(l: Locale, mode: Mode): Comparator<Song> {
    (a, b) => CompareSongs(l, mode, a, b)
  }

  // ---------- the decorated form ----------

  datatype Decorated = Decorated(
    song: Song, titleKey: Option<string>, titleBucket: nat, artistKey: Option<string>, artistBucket: nat,
    importedAt: real, hash: string)

  function Decorate(l: Locale, mode: Mode, song: Song): Decorated {
    var titleKey := NormalizeKey(l, song.title);
    var artistKey := NormalizeKey(l, song.artist);
    Decorated(song,
              titleKey, if mode.TitleAsc? then BucketForSortKey(l, titleKey) else 0,
              artistKey, if mode.ArtistAsc? then BucketForSortKey(l, artistKey) else 0,
              FiniteOrZero(song.importedAt), song.hash)
  }

  function CompareDecoratedKeys(l: Locale, aKey: Option<string>, aBucket: nat, bKey: Option<string>, bBucket: nat,
                                useBuckets: bool): real
  {
    if aKey.None? && bKey.None? then 0.0
    else if aKey.None? then 1.0
    else if bKey.None? then -1.0
    else if useBuckets && aBucket != bBucket then (aBucket - bBucket) as real
    else l.collate(aKey.value, bKey.value) as real
  }

  function CompareDecorated(l: Locale, mode: Mode, a: Decorated, b: Decorated): real {
    var byTitle := CompareDecoratedKeys(l, a.titleKey, a.titleBucket, b.titleKey, b.titleBucket, mode.TitleAsc?);
    var byArtist := CompareDecoratedKeys(l, a.artistKey, a.artistBucket, b.artistKey, b.artistBucket, mode.ArtistAsc?);
    match mode
    case RecentlyImported =>
      if a.importedAt != b.importedAt then b.importedAt - a.importedAt
      else if byTitle != 0.0 then byTitle
      else if byArtist != 0.0 then byArtist
      else CompareStrings(a.hash, b.hash)
    case TitleAsc =>
      if byTitle != 0.0 then byTitle
      else if byArtist != 0.0 then byArtist
      else if a.importedAt != b.importedAt then b.importedAt - a.importedAt
      else CompareStrings(a.hash, b.hash)
    case ArtistAsc =>
      if byArtist != 0.0 then byArtist
      else if byTitle != 0.0 then byTitle
      else if a.importedAt != b.importedAt then b.importedAt - a.importedAt
      else CompareStrings(a.hash, b.hash)
  }

  function DecoratedOrder(l: Locale, mode: Mode): Comparator<Decorated> {
    (a, b) => CompareDecorated(l, mode, a, b)
  }

  /** Decorates, sorts by the decoration, and takes the decoration off again. */
  function SortSongs(l: Locale, mode: Mode, songs: seq<Song>): seq<Song> {
    var decorated := Map((song: Song) => Decorate(l, mode, song), songs);
    var sorted := Sort(DecoratedOrder(l, mode), decorated);
    Map((d: Decorated) => d.song, sorted)
  }

  // ---------- the comparator is a total preorder ----------

  function TextOrder(l: Locale, useBuckets: bool): Comparator<Option<string>> {
    (a, b) => CompareTextKeys(l, a, b, useBuckets)
  }

  lemma TextOrderIsWeak(l: Locale, useBuckets: bool)
    requires Lawful(l)
    ensures WeakOrder(TextOrder(l, useBuckets))
  {
    var c := TextOrder(l, useBuckets);
    var collate := Collate(l);
    forall a, b ensures c(a, b) < 0.0 <==> c(b, a) > 0.0 {
      var aKey := NormalizeKey(l, a);
      var bKey := NormalizeKey(l, b);
      if aKey.Some? && bKey.Some? {
        assert collate(aKey.value, bKey.value) < 0.0 <==> collate(bKey.value, aKey.value) > 0.0;
      }
    }
    forall a, b, d | c(a, b) <= 0.0 && c(b, d) <= 0.0 ensures c(a, d) <= 0.0 {
      var aKey := NormalizeKey(l, a);
      var bKey := NormalizeKey(l, b);
      var dKey := NormalizeKey(l, d);
      if aKey.Some? && bKey.Some? && dKey.Some? {
        assert collate(aKey.value, bKey.value) <= 0.0 && collate(bKey.value, dKey.value) <= 0.0 ==>
          collate(aKey.value, dKey.value) <= 0.0;
      }
    }
  }

  lemma ImportedOrderIsWeak()
    ensures WeakOrder(ImportedAtDescending)
  {
  }

  function TitleOf(): Song -> Option<string> {
    (song: Song) => song.title
  }

  function ArtistOf(): Song -> Option<string> {
    (song: Song) => song.artist
  }

  function HashOrder(): Comparator<Song> {
    By((song: Song) => song.hash, CompareStrings)
  }

  function ImportedOrder(): Comparator<Song> {
    By((song: Song) => song.importedAt, ImportedAtDescending)
  }

  /** The order of a mode as a chain of orders on one field each. */
  function Chain(l: Locale, mode: Mode): Comparator<Song> {
    match mode
    case RecentlyImported =>
      Then(ImportedOrder(),
           Then(By(TitleOf(), TextOrder(l, false)), Then(By(ArtistOf(), TextOrder(l, false)), HashOrder())))
    case TitleAsc =>
      Then(By(TitleOf(), TextOrder(l, true)),
           Then(By(ArtistOf(), TextOrder(l, false)), Then(ImportedOrder(), HashOrder())))
    case ArtistAsc =>
      Then(By(ArtistOf(), TextOrder(l, true)),
           Then(By(TitleOf(), TextOrder(l, false)), Then(ImportedOrder(), HashOrder())))
  }

  lemma ThreeThen(a: Comparator<Song>, b: Comparator<Song>, c: Comparator<Song>, d: Comparator<Song>)
    requires WeakOrder(a) && WeakOrder(b) && WeakOrder(c) && WeakOrder(d)
    ensures WeakOrder(Then(a, Then(b, Then(c, d))))
  {
    ThenIsWeakOrder(c, d);
    ThenIsWeakOrder(b, Then(c, d));
    ThenIsWeakOrder(a, Then(b, Then(c, d)));
  }

  lemma ChainIsWeak(l: Locale, mode: Mode)
    requires Lawful(l)
    ensures WeakOrder(Chain(l, mode))
  {
    StringsAreOrdered();
    ImportedOrderIsWeak();
    ByIsWeakOrder((song: Song) => song.hash, CompareStrings);
    ByIsWeakOrder((song: Song) => song.importedAt, ImportedAtDescending);
    forall useBuckets: bool
      ensures WeakOrder(By(TitleOf(), TextOrder(l, useBuckets))) && WeakOrder(By(ArtistOf(), TextOrder(l, useBuckets)))
    {
      TextOrderIsWeak(l, useBuckets);
      ByIsWeakOrder(TitleOf(), TextOrder(l, useBuckets));
      ByIsWeakOrder(ArtistOf(), TextOrder(l, useBuckets));
    }
    match mode
    case RecentlyImported =>
      ThreeThen(ImportedOrder(), By(TitleOf(), TextOrder(l, false)), By(ArtistOf(), TextOrder(l, false)), HashOrder());
    case TitleAsc =>
      ThreeThen(By(TitleOf(), TextOrder(l, true)), By(ArtistOf(), TextOrder(l, false)), ImportedOrder(), HashOrder());
    case ArtistAsc =>
      ThreeThen(By(ArtistOf(), TextOrder(l, true)), By(TitleOf(), TextOrder(l, false)), ImportedOrder(), HashOrder());
  }

  lemma SongOrderIsChain(l: Locale, mode: Mode, a: Song, b: Song)
    ensures SongOrder(l, mode)(a, b) == Chain(l, mode)(a, b)
  {
  }

  lemma TiesShareHash(l: Locale, mode: Mode, a: Song, b: Song)
    requires Lawful(l) && SongOrder(l, mode)(a, b) == 0.0
    ensures a.hash == b.hash
  {
    StringsAreOrdered();
    SongOrderIsChain(l, mode, a, b);
  }

  lemma SongOrderIsWeak(l: Locale, mode: Mode)
    requires Lawful(l)
    ensures WeakOrder(SongOrder(l, mode))
  {
    ChainIsWeak(l, mode);
    var c := Chain(l, mode);
    var o := SongOrder(l, mode);
    forall a, b ensures o(a, b) == c(a, b) {
      SongOrderIsChain(l, mode, a, b);
    }
    forall a, b, d | o(a, b) <= 0.0 && o(b, d) <= 0.0 ensures o(a, d) <= 0.0 {
      assert c(a, b) <= 0.0 && c(b, d) <= 0.0;
    }
    forall a, b ensures o(a, b) < 0.0 <==> o(b, a) > 0.0 {
      assert c(a, b) < 0.0 <==> c(b, a) > 0.0;
    }
  }

  /** In every mode the comparison of songs is a total preorder, and songs that tie have the same hash. */
  lemma SongsAreOrdered(l: Locale, mode: Mode)
    requires Lawful(l)
    ensures WeakOrder(SongOrder(l, mode))
    ensures forall a, b :: SongOrder(l, mode)(a, b) == 0.0 ==> a.hash == b.hash
  {
    SongOrderIsWeak(l, mode);
    forall a, b | SongOrder(l, mode)(a, b) == 0.0 ensures a.hash == b.hash {
      TiesShareHash(l, mode, a, b);
    }
  }

  // ---------- what the order means ----------

  /** When a song was imported, counting what is not finite as zero. */
  predicate ImportedAt(song: Song, time: real) {
    match song.importedAt
    case Finite(value) => time == value
    case NotFinite => time == 0.0
  }

  ghost predicate Newer(a: Song, b: Song) {
    exists s, t :: ImportedAt(a, s) && ImportedAt(b, t) && s > t
  }

  ghost predicate SameTime(a: Song, b: Song) {
    exists s :: ImportedAt(a, s) && ImportedAt(b, s)
  }

  /**
  One text comes before another: a text before none, an earlier bucket before a later one where buckets count, and
  within a bucket, or without buckets, as the collator says.
  */
  ghost predicate TextBefore(l: Locale, a: Option<string>, b: Option<string>, useBuckets: bool) {
    exists x :: HasText(l, a, x) &&
      (|| IsBlank(l, b)
       || exists y :: HasText(l, b, y) &&
            if useBuckets && FirstLetter(l, x) != FirstLetter(l, y) then FirstLetter(l, x) < FirstLetter(l, y)
            else l.collate(x, y) < 0)
  }

  /** Two texts tie: both are missing, or the collator does not tell them apart, nor do buckets where they count. */
  ghost predicate TextTies(l: Locale, a: Option<string>, b: Option<string>, useBuckets: bool) {
    || (IsBlank(l, a) && IsBlank(l, b))
    || exists x, y :: HasText(l, a, x) && HasText(l, b, y) && l.collate(x, y) == 0
                      && (useBuckets ==> FirstLetter(l, x) == FirstLetter(l, y))
  }

  /** The first song may be listed before the second: the first key that tells them apart puts it first. */
  ghost predicate MayPrecede(l: Locale, mode: Mode, a: Song, b: Song) {
    match mode
    case RecentlyImported =>
      || Newer(a, b)
      || (SameTime(a, b)
          && (|| TextBefore(l, a.title, b.title, false)
              || (TextTies(l, a.title, b.title, false)
                  && (|| TextBefore(l, a.artist, b.artist, false)
                      || (TextTies(l, a.artist, b.artist, false) && AtMost(a.hash, b.hash))))))
    case TitleAsc =>
      || TextBefore(l, a.title, b.title, true)
      || (TextTies(l, a.title, b.title, true)
          && (|| TextBefore(l, a.artist, b.artist, false)
              || (TextTies(l, a.artist, b.artist, false)
                  && (Newer(a, b) || (SameTime(a, b) && AtMost(a.hash, b.hash))))))
    case ArtistAsc =>
      || TextBefore(l, a.artist, b.artist, true)
      || (TextTies(l, a.artist, b.artist, true)
          && (|| TextBefore(l, a.title, b.title, false)
              || (TextTies(l, a.title, b.title, false)
                  && (Newer(a, b) || (SameTime(a, b) && AtMost(a.hash, b.hash))))))
  }

  lemma TextSigns(l: Locale, a: Option<string>, b: Option<string>, useBuckets: bool)
    requires Lawful(l)
    ensures CompareTextKeys(l, a, b, useBuckets) < 0.0 <==> TextBefore(l, a, b, useBuckets)
    ensures CompareTextKeys(l, a, b, useBuckets) == 0.0 <==> TextTies(l, a, b, useBuckets)
  {
    if !IsBlank(l, a) {
      assert HasText(l, a, Normal(l, a.value));
    }
    if !IsBlank(l, b) {
      assert HasText(l, b, Normal(l, b.value));
    }
  }

  lemma TimeSigns(a: Song, b: Song)
    ensures ImportedAtDescending(a.importedAt, b.importedAt) < 0.0 <==> Newer(a, b)
    ensures ImportedAtDescending(a.importedAt, b.importedAt) == 0.0 <==> SameTime(a, b)
  {
    assert ImportedAt(a, FiniteOrZero(a.importedAt)) && ImportedAt(b, FiniteOrZero(b.importedAt));
  }

  lemma OrderExactlyWhen(l: Locale, mode: Mode, a: Song, b: Song)
    requires Lawful(l)
    ensures SongOrder(l, mode)(a, b) <= 0.0 <==> MayPrecede(l, mode, a, b)
  {
    TimeSigns(a, b);
    StringsAre(a.hash, b.hash);
    TextSigns(l, a.title, b.title, mode.TitleAsc?);
    TextSigns(l, a.artist, b.artist, mode.ArtistAsc?);
  }

  // ---------- the decorated form refines it ----------

  /** On decorated songs the fast comparator gives the very number the plain one gives. */
  lemma DecoratedAgrees(l: Locale, mode: Mode, a: Song, b: Song)
    ensures CompareDecorated(l, mode, Decorate(l, mode, a), Decorate(l, mode, b)) == CompareSongs(l, mode, a, b)
  {
  }

  lemma SortIsPlainSort(l: Locale, mode: Mode, songs: seq<Song>)
    ensures SortSongs(l, mode, songs) == Sort(SongOrder(l, mode), songs)
  {
    var decorate := (song: Song) => Decorate(l, mode, song);
    forall a, b ensures DecoratedOrder(l, mode)(decorate(a), decorate(b)) == SongOrder(l, mode)(a, b) {
      DecoratedAgrees(l, mode, a, b);
    }
    SortDecorated(decorate, SongOrder(l, mode), DecoratedOrder(l, mode), songs);
    var sorted := Sort(SongOrder(l, mode), songs);
    assert Sort(DecoratedOrder(l, mode), Map(decorate, songs)) == Map(decorate, sorted);
    assert Map((d: Decorated) => d.song, Map(decorate, sorted)) == sorted;
  }

  /** Sorting gives the same songs, ordered by the plain comparator. */
  lemma SortedSongs(l: Locale, mode: Mode, songs: seq<Song>)
    requires Lawful(l)
    ensures multiset(SortSongs(l, mode, songs)) == multiset(songs)
    ensures Sorted(SongOrder(l, mode), SortSongs(l, mode, songs))
    ensures var sorted := SortSongs(l, mode, songs);
            forall i, j | 0 <= i < j < |sorted| :: MayPrecede(l, mode, sorted[i], sorted[j])
  {
    SortIsPlainSort(l, mode, songs);
    SongsAreOrdered(l, mode);
    SortKeepsAll(SongOrder(l, mode), songs);
    SortSorted(SongOrder(l, mode), songs);
    var sorted := SortSongs(l, mode, songs);
    forall i, j | 0 <= i < j < |sorted| ensures MayPrecede(l, mode, sorted[i], sorted[j]) {
      OrderExactlyWhen(l, mode, sorted[i], sorted[j]);
    }
  }

  /**
  As hashes tell the songs of a library apart, the order they are listed in does not depend
  on where they came from.
  */
  lemma SortIsCanonical(l: Locale, mode: Mode, songs: seq<Song>, shuffled: seq<Song>)
    requires Lawful(l) && multiset(songs) == multiset(shuffled)
    requires forall a, b | a in songs && b in songs :: a.hash == b.hash ==> a == b
    ensures SortSongs(l, mode, songs) == SortSongs(l, mode, shuffled)
  {
    SongsAreOrdered(l, mode);
    SortedSongs(l, mode, songs);
    SortedSongs(l, mode, shuffled);
    var sorted := SortSongs(l, mode, songs);
    forall a, b | a in multiset(sorted) && b in multiset(sorted) && SongOrder(l, mode)(a, b) == 0.0 ensures a == b {
      assert a in songs && b in songs;
    }
    SortedIsUnique(SongOrder(l, mode), sorted, SortSongs(l, mode, shuffled));
  }
}
