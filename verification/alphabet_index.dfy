/** The alphabet rail: where each letter starts in a sorted list, and where a tap on a letter lands. */
module AlphabetIndex {
  import opened Basics
  import opened Ordering
  import opened SongSort

  function BucketOf(l: Locale, mode: Mode, song: Song): nat {
    BucketForSortKey(l, if mode.TitleAsc? then song.title else song.artist)
  }

  /** The index of the first song of each bucket that has one. */
  ghost predicate IsIndex(l: Locale, mode: Mode, songs: seq<Song>, index: map<nat, nat>) {
    && (forall i | 0 <= i < |songs| :: BucketOf(l, mode, songs[i]) in index)
    && (forall b <- index :: index[b] < |songs| && BucketOf(l, mode, songs[index[b]]) == b)
    && (forall b <- index, i | 0 <= i < index[b] :: i < |songs| ==> BucketOf(l, mode, songs[i]) != b)
  }

  method BuildAlphabetIndex(l: Locale, mode: Mode, songs: seq<Song>) returns (index: map<nat, nat>)
    ensures IsIndex(l, mode, songs, index)
  {
    index := map[];
    for i := 0 to |songs|
      invariant forall k | 0 <= k < i :: BucketOf(l, mode, songs[k]) in index
      invariant forall b <- index :: index[b] < i && BucketOf(l, mode, songs[index[b]]) == b
      invariant forall b <- index, k | 0 <= k < index[b] :: BucketOf(l, mode, songs[k]) != b
    {
      var bucket := BucketOf(l, mode, songs[i]);
      if bucket !in index {
        index := index[bucket := i];
      }
    }
  }

  lemma IndexIsUnique(l: Locale, mode: Mode, songs: seq<Song>, a: map<nat, nat>, b: map<nat, nat>)
    requires IsIndex(l, mode, songs, a) && IsIndex(l, mode, songs, b)
    ensures a == b
  {
    assert a.Keys == b.Keys;
    forall k <- a ensures a[k] == b[k] {
      assert !(a[k] < b[k]) && !(b[k] < a[k]);
    }
  }

  function Distance(a: nat, b: nat): nat {
    if a < b then b - a else a - b
  }

  datatype Landing = Landing(index: nat, bucket: nat)

  /** Looks at the requested bucket and then outward, the following bucket first at each distance. */
  method ResolveBucket(index: map<nat, nat>, requested: nat) returns (landing: Option<Landing>)
    requires requested < BUCKETS && forall b <- index :: b < BUCKETS
    ensures landing.None? <==> index == map[]
    ensures landing.Some? ==>
              var b := landing.value.bucket;
              && b in index && landing.value.index == index[b]
              && (forall other <- index :: Distance(requested, b) <= Distance(requested, other))
              && (forall other <- index :: Distance(requested, b) == Distance(requested, other) ==> other <= b)
  {
    if index == map[] {
      return None;
    }
    if requested in index {
      return Some(Landing(index[requested], requested));
    }
    ghost var present :| present in index;
    assert 1 <= Distance(requested, present) < BUCKETS;
    landing := None;
    var d := 1;
    while d < BUCKETS
      invariant 1 <= d <= BUCKETS
      invariant forall other <- index :: d <= Distance(requested, other)
    {
      if requested + d < BUCKETS && requested + d in index {
        return Some(Landing(index[requested + d], requested + d));
      }
      if requested >= d && requested - d in index {
        return Some(Landing(index[requested - d], requested - d));
      }
      d := d + 1;
    }
    assert false;
  }

  // ---------- what the index means on a sorted list ----------

  /** A key and its normalized form fall under the same letter. */
  lemma BucketOfNormalized(l: Locale, value: Option<string>)
    requires Lawful(l)
    ensures BucketForSortKey(l, NormalizeKey(l, value)) == BucketForSortKey(l, value)
  {
  }

  /** Songs in order by title or artist are in order by bucket; missing keys come last, in the last bucket. */
  lemma OrderRespectsBuckets(l: Locale, mode: Mode, a: Song, b: Song)
    requires Lawful(l) && !mode.RecentlyImported? && SongOrder(l, mode)(a, b) <= 0.0
    ensures BucketOf(l, mode, a) <= BucketOf(l, mode, b) < BUCKETS
  {
    var aKey := if mode.TitleAsc? then a.title else a.artist;
    var bKey := if mode.TitleAsc? then b.title else b.artist;
    BucketOfNormalized(l, aKey);
    BucketOfNormalized(l, bKey);
    assert CompareTextKeys(l, aKey, bKey, true) <= 0.0;
  }

  ghost predicate Monotone(l: Locale, mode: Mode, sorted: seq<Song>) {
    forall i, j | 0 <= i < j < |sorted| :: BucketOf(l, mode, sorted[i]) <= BucketOf(l, mode, sorted[j])
  }

  lemma SortedIsMonotone(l: Locale, mode: Mode, songs: seq<Song>)
    requires Lawful(l) && !mode.RecentlyImported?
    ensures Monotone(l, mode, SortSongs(l, mode, songs))
  {
    var sorted := SortSongs(l, mode, songs);
    SortedSongs(l, mode, songs);
    forall i, j | 0 <= i < j < |sorted| ensures BucketOf(l, mode, sorted[i]) <= BucketOf(l, mode, sorted[j]) {
      OrderRespectsBuckets(l, mode, sorted[i], sorted[j]);
    }
  }

  /** A bucket's start parts the smaller buckets from the others. */
  lemma StartParts(l: Locale, mode: Mode, sorted: seq<Song>, index: map<nat, nat>, b: nat, i: nat)
    requires IsIndex(l, mode, sorted, index) && Monotone(l, mode, sorted) && b in index && i < |sorted|
    ensures BucketOf(l, mode, sorted[i]) < b <==> i < index[b]
  {
    if i < index[b] {
      assert BucketOf(l, mode, sorted[i]) <= BucketOf(l, mode, sorted[index[b]]);
    } else if i > index[b] {
      assert BucketOf(l, mode, sorted[index[b]]) <= BucketOf(l, mode, sorted[i]);
    }
  }

  lemma StartsInOrder(l: Locale, mode: Mode, sorted: seq<Song>, index: map<nat, nat>, b: nat, c: nat)
    requires IsIndex(l, mode, sorted, index) && Monotone(l, mode, sorted) && b in index && c in index
    ensures b < c <==> index[b] < index[c]
  {
    StartParts(l, mode, sorted, index, c, index[b]);
  }

  /** A bucket is what lies from its start to the next one's. */
  lemma BlockIs(l: Locale, mode: Mode, sorted: seq<Song>, index: map<nat, nat>, b: nat, i: nat)
    requires IsIndex(l, mode, sorted, index) && Monotone(l, mode, sorted) && b in index && i < |sorted|
    ensures BucketOf(l, mode, sorted[i]) == b <==> index[b] <= i && forall c <- index :: b < c ==> i < index[c]
  {
    var d := BucketOf(l, mode, sorted[i]);
    assert d in index;
    StartParts(l, mode, sorted, index, b, i);
    forall c <- index ensures d < c <==> i < index[c] {
      StartParts(l, mode, sorted, index, c, i);
    }
  }

  /**
  On the sorted list each bucket is one block that starts at its index: what is before it belongs to
  smaller buckets, what follows the block to larger ones.
  */
  lemma BucketsAreBlocks(l: Locale, mode: Mode, songs: seq<Song>, index: map<nat, nat>)
    requires Lawful(l) && !mode.RecentlyImported?
    requires IsIndex(l, mode, SortSongs(l, mode, songs), index)
    ensures var sorted := SortSongs(l, mode, songs);
            && (forall b <- index, i | 0 <= i < |sorted| ::
                  (BucketOf(l, mode, sorted[i]) < b <==> i < index[b]))
            && (forall b <- index, c <- index :: b < c <==> index[b] < index[c])
            && (forall b <- index, i | 0 <= i < |sorted| ::
                  (BucketOf(l, mode, sorted[i]) == b <==>
                     index[b] <= i && forall c <- index :: b < c ==> i < index[c]))
  {
    var sorted := SortSongs(l, mode, songs);
    SortedIsMonotone(l, mode, songs);
    forall b <- index, i | 0 <= i < |sorted| ensures BucketOf(l, mode, sorted[i]) < b <==> i < index[b] {
      StartParts(l, mode, sorted, index, b, i);
    }
    forall b <- index, c <- index ensures b < c <==> index[b] < index[c] {
      StartsInOrder(l, mode, sorted, index, b, c);
    }
    forall b <- index, i | 0 <= i < |sorted|
      ensures BucketOf(l, mode, sorted[i]) == b <==> index[b] <= i && forall c <- index :: b < c ==> i < index[c]
    {
      BlockIs(l, mode, sorted, index, b, i);
    }
  }

  lemma SameMembers(l: Locale, mode: Mode, songs: seq<Song>)
    ensures forall song :: song in SortSongs(l, mode, songs) <==> song in songs
    ensures |SortSongs(l, mode, songs)| == |songs|
  {
    var sorted := SortSongs(l, mode, songs);
    SortIsPlainSort(l, mode, songs);
    SortKeepsAll(SongOrder(l, mode), songs);
    forall song ensures song in sorted <==> song in songs {
      assert song in sorted <==> song in multiset(sorted);
    }
    assert |multiset(sorted)| == |sorted|;
  }

  lemma IndexMembers(l: Locale, mode: Mode, songs: seq<Song>, sorted: seq<Song>, index: map<nat, nat>)
    requires IsIndex(l, mode, sorted, index)
    requires (forall song :: song in sorted <==> song in songs) && |sorted| == |songs|
    ensures forall b <- index :: b < BUCKETS
    ensures forall song <- songs :: BucketOf(l, mode, song) in index
    ensures index == map[] <==> songs == []
  {
    forall b <- index ensures b < BUCKETS {
      assert BucketOf(l, mode, sorted[index[b]]) == b;
    }
    forall song <- songs ensures BucketOf(l, mode, song) in index {
      var i :| 0 <= i < |sorted| && sorted[i] == song;
    }
    if songs != [] {
      assert songs[0] in songs;
    }
  }

  /** A tap on a letter lands at the start of its block, or of the nearest one, and everything above is smaller. */
  method JumpTo(l: Locale, mode: Mode, songs: seq<Song>, requested: nat) returns (landing: Option<Landing>)
    requires Lawful(l) && !mode.RecentlyImported? && requested < BUCKETS
    ensures landing.None? <==> songs == []
    ensures var sorted := SortSongs(l, mode, songs);
            landing.Some? ==>
              && landing.value.index < |sorted|
              && BucketOf(l, mode, sorted[landing.value.index]) == landing.value.bucket
              && (forall i | 0 <= i < |sorted| ::
                    (BucketOf(l, mode, sorted[i]) < landing.value.bucket <==> i < landing.value.index))
              && (forall song <- songs ::
                    Distance(requested, landing.value.bucket) <= Distance(requested, BucketOf(l, mode, song)))
  {
    var sorted := SortSongs(l, mode, songs);
    var index := BuildAlphabetIndex(l, mode, sorted);
    SameMembers(l, mode, songs);
    IndexMembers(l, mode, songs, sorted, index);
    landing := ResolveBucket(index, requested);
    if landing.Some? {
      BucketsAreBlocks(l, mode, songs, index);
    }
  }
}
