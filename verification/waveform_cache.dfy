/**
The cache of waveform peaks: a map from keys to peaks and an array of the keys in order of use, the least
recently used first, from which the oldest are shifted out when there are too many.
*/
module WaveformCache {
  import opened Basics

  const CAPACITY := 96

  datatype Entry = Entry(peaks: seq<real>, buckets: nat)

  datatype Lru = Lru(order: seq<string>, entries: map<string, Entry>)

  const EMPTY := Lru([], map[])

  // ---------- keys ----------

  function Decimal(n: nat): (s: string)
    ensures s != "" && forall c <- s :: '0' <= c <= '9'
  {
    var digit := ('0' as int + n % 10) as char;
    if n < 10 then [digit] else Decimal(n / 10) + [digit]
  }

  function CacheKey(song: string, buckets: nat): string {
    song + ":" + Decimal(buckets)
  }

  lemma {:induction false} DecimalIsInjective(m: nat, n: nat)
    requires Decimal(m) == Decimal(n)
    ensures m == n
  {
    var s, t := Decimal(m), Decimal(n);
    assert s[|s| - 1] == ('0' as int + m % 10) as char && t[|t| - 1] == ('0' as int + n % 10) as char;
    assert m % 10 == n % 10;
    if m >= 10 && n >= 10 {
      assert s[..|s| - 1] == Decimal(m / 10) && t[..|t| - 1] == Decimal(n / 10);
      DecimalIsInjective(m / 10, n / 10);
    }
  }

  /** No two songs or widths share a key, whatever the song's hash contains. */
  lemma KeysAreUnique(song: string, buckets: nat, other: string, width: nat)
    requires CacheKey(song, buckets) == CacheKey(other, width)
    ensures song == other && buckets == width
  {
    var key := CacheKey(song, buckets);
    LastColon(song, Decimal(buckets));
    LastColon(other, Decimal(width));
    assert |song| == |other|;
    assert key[..|song|] == song && key[..|other|] == other;
    assert key[|song| + 1..] == Decimal(buckets) && key[|other| + 1..] == Decimal(width);
    DecimalIsInjective(buckets, width);
  }

  lemma LastColon(before: string, digits: string)
    requires forall c <- digits :: c != ':'
    ensures var s := before + ":" + digits; s[|before|] == ':' && forall i | |before| < i < |s| :: s[i] != ':'
  {
    var s := before + ":" + digits;
    forall i | |before| < i < |s| ensures s[i] != ':' {
      assert s[i] == digits[i - |before| - 1];
      assert digits[i - |before| - 1] in digits;
    }
  }

  // ---------- what the operations do ----------

  function IndexOf<K(==)>(keys: seq<K>, key: K): (i: int)
    ensures -1 <= i < |keys|
    ensures i == -1 <==> key !in keys
    ensures i >= 0 ==> keys[i] == key && forall k | 0 <= k < i :: keys[k] != key
  {
    if key !in keys then -1
    else
      FirstExists(keys, key);
      var i: nat :| i < |keys| && keys[i] == key && forall k | 0 <= k < i :: keys[k] != key;
      i
  }

  lemma {:induction false} FirstExists<K>(keys: seq<K>, key: K)
    requires key in keys
    ensures exists i: nat :: i < |keys| && keys[i] == key && forall k | 0 <= k < i :: keys[k] != key
  {
    if keys[0] != key {
      FirstExists(keys[1..], key);
      var i: nat :| i < |keys[1..]| && keys[1..][i] == key && forall k | 0 <= k < i :: keys[1..][k] != key;
      assert keys[i + 1] == key && forall k | 0 < k < i + 1 :: keys[k] == keys[1..][k - 1];
    } else {
      assert keys[0] == key;
    }
  }

  /** The keys without the first occurrence of one of them. */
  function Without<K(==)>(keys: seq<K>, key: K): seq<K> {
    var i := IndexOf(keys, key);
    if i >= 0 then keys[..i] + keys[i + 1..] else keys
  }

  /** The key is now the one used last. */
  function Touch<K(==)>(keys: seq<K>, key: K): seq<K> {
    Without(keys, key) + [key]
  }

  function Elements<K(==)>(keys: seq<K>): set<K> {
    set key | key in keys
  }

  function Get(c: Lru, key: string): (Lru, Option<Entry>) {
    if key !in c.entries then (c, None)
    else (c.(order := Touch(c.order, key)), Some(c.entries[key]))
  }

  /** The oldest keys beyond the capacity go, and their entries with them. */
  function Evict(c: Lru): Lru {
    if |c.order| <= CAPACITY then c
    else
      var excess := |c.order| - CAPACITY;
      Lru(c.order[excess..], c.entries - Elements(c.order[..excess]))
  }

  function Set(c: Lru, key: string, entry: Entry): Lru {
    if entry.peaks == [] then c
    else
      var order := if key in c.entries then Without(c.order, key) else c.order;
      Evict(Lru(order + [key], c.entries[key := entry]))
  }

  ghost predicate Distinct<K>(keys: seq<K>) {
    forall i, j | 0 <= i < j < |keys| :: keys[i] != keys[j]
  }

  /** The array has the map's keys, each once, and no more of them than fit. */
  ghost predicate Agrees(c: Lru) {
    Distinct(c.order) && Elements(c.order) == c.entries.Keys && |c.order| <= CAPACITY && "" !in c.order
  }

  class Cache {
    var lruOrder: seq<string>
    var lruMap: map<string, Entry>

    ghost function Now(): Lru
      reads this
    {
      Lru(lruOrder, lruMap)
    }

    constructor ()
      ensures Now() == EMPTY && Agrees(Now())
    {
      lruOrder, lruMap := [], map[];
    }

    method GetWaveformCache(song: string, buckets: nat) returns (entry: Option<Entry>)
      requires Agrees(Now())
      modifies this
      ensures (Now(), entry) == Get(old(Now()), CacheKey(song, buckets)) && Agrees(Now())
    {
      var key := CacheKey(song, buckets);
      if key !in lruMap {
        return None;
      }
      entry := Some(lruMap[key]);
      GetKeeps(Now(), key);
      var idx := IndexOf(lruOrder, key);
      if idx >= 0 {
        lruOrder := lruOrder[..idx] + lruOrder[idx + 1..];
      }
      lruOrder := lruOrder + [key];
    }

    method SetWaveformCache(song: string, buckets: nat, peaks: seq<real>)
      requires Agrees(Now())
      modifies this
      ensures Now() == Set(old(Now()), CacheKey(song, buckets), Entry(peaks, buckets)) && Agrees(Now())
    {
      if peaks == [] {
        return;
      }
      var key := CacheKey(song, buckets);
      SetKeeps(Now(), key, Entry(peaks, buckets));
      NoEmptyKey(Now(), key);
      if key in lruMap {
        var idx := IndexOf(lruOrder, key);
        if idx >= 0 {
          lruOrder := lruOrder[..idx] + lruOrder[idx + 1..];
        }
      }
      lruMap := lruMap[key := Entry(peaks, buckets)];
      lruOrder := lruOrder + [key];
      Shrink();
    }

    /** The eviction loop at the end of a set. */
    method Shrink()
      requires "" !in lruOrder
      modifies this
      ensures Now() == Evict(old(Now()))
    {
      ghost var was := Now();
      ghost var shifted := 0;
      while |lruOrder| > CAPACITY
        invariant 0 <= shifted <= |was.order| && (shifted == 0 || |was.order| - shifted >= CAPACITY)
        invariant lruOrder == was.order[shifted..]
        invariant lruMap == was.entries - Elements(was.order[..shifted])
      {
        var oldest := lruOrder[0];
        WithoutOldest(was, shifted);
        lruOrder := lruOrder[1..];
        if oldest != "" {
          lruMap := lruMap - {oldest};
        }
        shifted := shifted + 1;
      }
      assert shifted == 0 ==> lruMap == was.entries;
    }
  }

  lemma WithoutOldest(c: Lru, shifted: nat)
    requires shifted < |c.order|
    ensures c.entries - Elements(c.order[..shifted + 1])
            == c.entries - Elements(c.order[..shifted]) - {c.order[shifted]}
  {
    assert c.order[..shifted + 1] == c.order[..shifted] + [c.order[shifted]];
    ElementsAppend(c.order[..shifted], c.order[shifted]);
  }

  // ---------- the array and the map agree ----------

  lemma WithoutKeeps<K>(keys: seq<K>, key: K)
    requires Distinct(keys)
    ensures Distinct(Without(keys, key)) && Elements(Without(keys, key)) == Elements(keys) - {key}
    ensures |Without(keys, key)| == if key in keys then |keys| - 1 else |keys|
  {
    var i := IndexOf(keys, key);
    if i >= 0 {
      assert keys == keys[..i] + [key] + keys[i + 1..];
    }
  }

  lemma ElementsAppend<K>(keys: seq<K>, key: K)
    ensures Elements(keys + [key]) == Elements(keys) + {key}
  {
  }

  lemma TouchKeeps<K>(keys: seq<K>, key: K)
    requires Distinct(keys)
    ensures Distinct(Touch(keys, key)) && Elements(Touch(keys, key)) == Elements(keys) + {key}
    ensures |Touch(keys, key)| == if key in keys then |keys| else |keys| + 1
  {
    WithoutKeeps(keys, key);
    var rest := Without(keys, key);
    assert key !in rest by {
      assert key !in Elements(rest);
    }
    ElementsAppend(rest, key);
  }

  lemma GetKeeps(c: Lru, key: string)
    requires Agrees(c)
    ensures Agrees(Get(c, key).0)
  {
    TouchKeeps(c.order, key);
    assert key in c.entries ==> key in Elements(c.order);
  }

  lemma EvictKeeps(c: Lru)
    requires Distinct(c.order) && Elements(c.order) == c.entries.Keys && "" !in c.order
    ensures Agrees(Evict(c))
  {
    if |c.order| > CAPACITY {
      var excess := |c.order| - CAPACITY;
      assert c.order == c.order[..excess] + c.order[excess..];
      assert Elements(c.order[excess..]) == Elements(c.order) - Elements(c.order[..excess]);
    }
  }

  lemma NoEmptyKey(c: Lru, key: string)
    requires Agrees(c) && key != ""
    ensures "" !in (if key in c.entries then Without(c.order, key) else c.order) + [key]
  {
    WithoutKeeps(c.order, key);
    assert "" !in Elements(Without(c.order, key)) by {
      assert "" !in Elements(c.order);
    }
  }

  lemma SetKeeps(c: Lru, key: string, entry: Entry)
    requires Agrees(c) && key != ""
    ensures Agrees(Set(c, key, entry))
  {
    WithoutKeeps(c.order, key);
    var order := if key in c.entries then Without(c.order, key) else c.order;
    assert key !in order by {
      assert key in c.order ==> key !in Elements(Without(c.order, key));
    }
    assert Elements(order + [key]) == Elements(order) + {key};
    EvictKeeps(Lru(order + [key], c.entries[key := entry]));
  }

  // ---------- least recently used ----------

  /**
  A run so far: the cache, the keys set or hit, in order, those no longer retained, and the
  value last set for each.
  */
  datatype Trace = Trace(cache: Lru, touches: seq<string>, forgotten: seq<string>, values: map<string, Entry>)

  datatype Event = Gets(song: string, buckets: nat) | Sets(song: string, buckets: nat, peaks: seq<real>)

  function Step(s: Trace, e: Event): Trace {
    var key := CacheKey(e.song, e.buckets);
    match e
    case Gets(_, _) =>
      var (cache, hit) := Get(s.cache, key);
      s.(cache := cache, touches := if hit.Some? then s.touches + [key] else s.touches)
    case Sets(_, buckets, peaks) =>
      if peaks == [] then s
      else
        Trace(Set(s.cache, key, Entry(peaks, buckets)), s.touches + [key], Forgotten(s, key),
              s.values[key := Entry(peaks, buckets)])
  }

  /**
  What is no longer retained once a key is set: another set revives it, and the oldest
  retained one may take its place.
  */
  function Forgotten(s: Trace, key: string): seq<string> {
    if key in s.cache.entries then s.forgotten
    else Without(s.forgotten, key)
         + if |s.cache.order| >= CAPACITY then s.cache.order[..|s.cache.order| + 1 - CAPACITY] else []
  }

  /** All keys ever touched, each once, ordered by when they were touched last. */
  function Recency<K(==)>(touches: seq<K>): seq<K> {
    if touches == [] then []
    else Touch(Recency(touches[..|touches| - 1]), touches[|touches| - 1])
  }

  /** What was touched after a key was touched last. */
  function After<K(==)>(touches: seq<K>, key: K): seq<K> {
    if touches == [] || touches[|touches| - 1] == key then []
    else After(touches[..|touches| - 1], key) + [touches[|touches| - 1]]
  }

  /**
  The retained keys are the last ones of the recency, as many as fit; and what is cached for each is its last value.
  */
  ghost predicate Inv(s: Trace) {
    && Agrees(s.cache)
    && Recency(s.touches) == s.forgotten + s.cache.order
    && (s.forgotten != [] ==> |s.cache.order| == CAPACITY)
    && (forall key | key in s.cache.entries :: key in s.values && s.cache.entries[key] == s.values[key])
  }

  lemma {:induction false} RecencyIsDistinct<K>(touches: seq<K>)
    ensures Distinct(Recency(touches)) && Elements(Recency(touches)) == Elements(touches)
    decreases |touches|
  {
    if touches != [] {
      var n := |touches| - 1;
      RecencyIsDistinct(touches[..n]);
      TouchKeeps(Recency(touches[..n]), touches[n]);
      ElementsAppend(touches[..n], touches[n]);
      assert touches == touches[..n] + [touches[n]];
    }
  }

  /** A hit or a set of a retained key reorders the retained ones. */
  lemma RetainedTouched(s: Trace, key: string)
    requires Inv(s) && key in s.cache.entries
    ensures Recency(s.touches + [key]) == s.forgotten + Touch(s.cache.order, key)
  {
    RecencyAppend(s.touches, key);
    RecencyIsDistinct(s.touches);
    assert key in s.cache.order by {
      assert key in Elements(s.cache.order);
    }
    if key in s.forgotten {
      NotInBoth(s.forgotten, s.cache.order, key);
      assert false;
    }
    TouchSplit(s.forgotten, s.cache.order, key);
  }

  /** A set of another key pushes the oldest retained one out, if there is no room. */
  lemma NewTouched(s: Trace, key: string)
    requires Inv(s) && key !in s.cache.entries
    ensures Recency(s.touches + [key]) == Without(s.forgotten, key) + (s.cache.order + [key])
  {
    RecencyAppend(s.touches, key);
    RecencyIsDistinct(s.touches);
    assert key !in s.cache.order by {
      assert key !in Elements(s.cache.order);
    }
    TouchSplit(s.forgotten, s.cache.order, key);
  }

  lemma RetainedSetOrder(s: Trace, key: string, entry: Entry)
    requires Inv(s) && entry.peaks != [] && key in s.cache.entries
    ensures Set(s.cache, key, entry).order == Touch(s.cache.order, key)
            && |Touch(s.cache.order, key)| == |s.cache.order|
    ensures Recency(s.touches + [key]) == Forgotten(s, key) + Set(s.cache, key, entry).order
  {
    RetainedTouched(s, key);
    assert key in Elements(s.cache.order);
    TouchKeeps(s.cache.order, key);
  }

  lemma JoinedAgain<K>(a: seq<K>, b: seq<K>, c: seq<K>)
    ensures (a + b) + c == a + (b + c)
  {
  }

  /** While there is room nothing has been forgotten, and nothing is. */
  lemma ForgottenWithRoom(s: Trace, key: string)
    requires Inv(s) && key !in s.cache.entries && |s.cache.order| < CAPACITY
    ensures Without(s.forgotten, key) == [] && Forgotten(s, key) == []
  {
    assert s.forgotten == [];
  }

  lemma ForgottenWhenFull(s: Trace, key: string)
    requires key !in s.cache.entries && |s.cache.order| == CAPACITY
    ensures Forgotten(s, key) == Without(s.forgotten, key) + s.cache.order[..1]
  {
  }

  lemma NewSetOrder(s: Trace, key: string, entry: Entry)
    requires Inv(s) && entry.peaks != [] && key !in s.cache.entries
    ensures Recency(s.touches + [key]) == Forgotten(s, key) + Set(s.cache, key, entry).order
    ensures Forgotten(s, key) != [] ==> |Set(s.cache, key, entry).order| == CAPACITY
  {
    NewTouched(s, key);
    SetEvicts(s.cache, key, entry);
    EvictedOrder(s.cache.order, key);
    if |s.cache.order| < CAPACITY {
      ForgottenWithRoom(s, key);
    } else {
      ForgottenWhenFull(s, key);
      JoinedAgain(Without(s.forgotten, key), s.cache.order[..1], Set(s.cache, key, entry).order);
    }
  }

  lemma SetEvicts(c: Lru, key: string, entry: Entry)
    requires entry.peaks != [] && key !in c.entries
    ensures Set(c, key, entry).order == Evict(Lru(c.order + [key], map[])).order
  {
  }

  /** What is shifted out and what stays are all there was. */
  lemma EvictedOrder(order: seq<string>, key: string)
    requires |order| <= CAPACITY
    ensures |order| < CAPACITY ==> Evict(Lru(order + [key], map[])).order == order + [key]
    ensures |order| == CAPACITY ==>
              order[..1] + Evict(Lru(order + [key], map[])).order == order + [key]
              && |Evict(Lru(order + [key], map[])).order| == CAPACITY
  {
  }

  lemma GetOrder(s: Trace, key: string)
    requires Inv(s) && key in s.cache.entries
    ensures var order := Get(s.cache, key).0.order;
            Recency(s.touches + [key]) == s.forgotten + order && |order| == |s.cache.order|
  {
    RetainedTouched(s, key);
    TouchKeeps(s.cache.order, key);
    assert key in Elements(s.cache.order);
  }

  lemma StepKeeps(s: Trace, e: Event)
    requires Inv(s)
    ensures Inv(Step(s, e))
  {
    var key := CacheKey(e.song, e.buckets);
    assert key != "";
    match e {
      case Gets(_, _) =>
        GetKeeps(s.cache, key);
        if key in s.cache.entries {
          GetOrder(s, key);
        }
      case Sets(_, buckets, peaks) =>
        if peaks != [] {
          SetKeeps(s.cache, key, Entry(peaks, buckets));
          if key in s.cache.entries {
            RetainedSetOrder(s, key, Entry(peaks, buckets));
          } else {
            NewSetOrder(s, key, Entry(peaks, buckets));
          }
        }
    }
  }

  ghost predicate Runs(s: Trace, es: seq<Event>, t: Trace)
    decreases |es|
  {
    if es == [] then s == t else Runs(Step(s, es[0]), es[1..], t)
  }

  lemma {:induction false} RunKeeps(s: Trace, es: seq<Event>, t: Trace)
    requires Inv(s) && Runs(s, es, t)
    ensures Inv(t)
    decreases |es|
  {
    if es != [] {
      StepKeeps(s, es[0]);
      RunKeeps(Step(s, es[0]), es[1..], t);
    }
  }

  const START := Trace(EMPTY, [], [], map[])

  lemma {:induction false} DistinctSize<K>(keys: seq<K>)
    requires Distinct(keys)
    ensures |Elements(keys)| == |keys|
    decreases |keys|
  {
    if keys != [] {
      DistinctSize(keys[1..]);
      assert Elements(keys) == Elements(keys[1..]) + {keys[0]};
    }
  }

  lemma WithoutSplit<K>(a: seq<K>, b: seq<K>, key: K)
    ensures Without(a + b, key) == if key in a then Without(a, key) + b else a + Without(b, key)
  {
    if key in a {
      WithoutFirst(a, b, key);
    } else if key in b {
      WithoutSecond(a, b, key);
    }
  }

  lemma WithoutFirst<K>(a: seq<K>, b: seq<K>, key: K)
    requires key in a
    ensures Without(a + b, key) == Without(a, key) + b
  {
    var i := IndexOf(a, key);
    FirstIs(a + b, i, key);
    assert (a + b)[..i] == a[..i] && (a + b)[i + 1..] == a[i + 1..] + b;
  }

  lemma WithoutSecond<K>(a: seq<K>, b: seq<K>, key: K)
    requires key !in a && key in b
    ensures Without(a + b, key) == a + Without(b, key)
  {
    var i := IndexOf(b, key);
    FirstInSecond(a, b, key);
    assert Without(a + b, key) == (a + b)[..|a| + i] + (a + b)[|a| + i + 1..];
    SpliceSecond(a, b, i);
  }

  lemma FirstInSecond<K>(a: seq<K>, b: seq<K>, key: K)
    requires key !in a && key in b
    ensures IndexOf(a + b, key) == |a| + IndexOf(b, key)
  {
    var i := IndexOf(b, key);
    forall k | 0 <= k < |a| + i ensures (a + b)[k] != key {
      assert (a + b)[k] == if k < |a| then a[k] else b[k - |a|];
    }
    FirstIs(a + b, |a| + i, key);
  }

  lemma SpliceSecond<K>(a: seq<K>, b: seq<K>, i: nat)
    requires i < |b|
    ensures (a + b)[..|a| + i] + (a + b)[|a| + i + 1..] == a + (b[..i] + b[i + 1..])
  {
    assert (a + b)[..|a| + i] == a + b[..i];
    assert (a + b)[|a| + i + 1..] == b[i + 1..];
  }

  lemma FirstIs<K>(keys: seq<K>, i: nat, key: K)
    requires i < |keys| && keys[i] == key && forall k | 0 <= k < i :: keys[k] != key
    ensures IndexOf(keys, key) == i
  {
  }

  lemma NotInBoth<K>(a: seq<K>, b: seq<K>, key: K)
    requires Distinct(a + b) && key in a
    ensures key !in b
  {
    var i :| 0 <= i < |a| && a[i] == key;
    forall j | 0 <= j < |b| ensures b[j] != key {
      assert (a + b)[i] == key && (a + b)[|a| + j] == b[j];
    }
  }

  /** Touching a key that is not the last of `a`: what follows `a` is touched as if alone. */
  lemma Unfound<K>(keys: seq<K>, key: K)
    requires key !in keys
    ensures Without(keys, key) == keys
  {
  }

  lemma TouchSplit<K>(a: seq<K>, b: seq<K>, key: K)
    requires Distinct(a + b)
    ensures Touch(a + b, key) == Without(a, key) + Touch(b, key)
  {
    WithoutSplit(a, b, key);
    if key in a {
      NotInBoth(a, b, key);
      Unfound(b, key);
      assert (Without(a, key) + b) + [key] == Without(a, key) + (b + [key]);
    } else {
      Unfound(a, key);
      assert (a + Without(b, key)) + [key] == a + (Without(b, key) + [key]);
    }
  }

  lemma TouchBehind<K>(touches: seq<K>, older: seq<K>, key: K, newer: seq<K>, touched: K)
    requires Recency(touches) == older + [key] + newer && touched != key
    ensures Touch(Recency(touches), touched) == Without(older, touched) + [key] + Touch(newer, touched)
  {
    RecencyIsDistinct(touches);
    TouchSplit(older + [key], newer, touched);
    WithoutSplit(older, [key], touched);
  }

  lemma RecencyBehind<K>(touches: seq<K>, was: seq<K>, key: K)
    requires touches != [] && touches[|touches| - 1] != key
    requires Recency(touches[..|touches| - 1]) == was + [key] + Recency(After(touches[..|touches| - 1], key))
    ensures Recency(touches) == Without(was, touches[|touches| - 1]) + [key] + Recency(After(touches, key))
  {
    var n := |touches| - 1;
    var after := After(touches[..n], key);
    TouchBehind(touches[..n], was, key, Recency(after), touches[n]);
    RecencyAppend(after, touches[n]);
  }

  lemma RecencyAppend<K>(touches: seq<K>, key: K)
    ensures Recency(touches + [key]) == Touch(Recency(touches), key)
  {
    assert (touches + [key])[..|touches|] == touches;
  }

  /** What stands behind a key in order of recency is the recency of what was touched after it. */
  lemma {:induction false} RecencySplit<K>(touches: seq<K>, key: K) returns (older: seq<K>)
    requires key in touches
    ensures Recency(touches) == older + [key] + Recency(After(touches, key))
    decreases |touches|
  {
    var n := |touches| - 1;
    var last := touches[n];
    if last == key {
      older := Without(Recency(touches[..n]), key);
    } else {
      NotLast(touches, key);
      var was := RecencySplit(touches[..n], key);
      RecencyBehind(touches, was, key);
      older := Without(was, last);
    }
  }

  lemma NotLast<K>(keys: seq<K>, key: K)
    requires key in keys && keys[|keys| - 1] != key
    ensures key in keys[..|keys| - 1]
  {
  }

  // ---------- over every run ----------

  /** The array and the map have the same keys, each once, and never more than fit. */
  lemma OrderMatchesMap(es: seq<Event>, s: Trace)
    requires Runs(START, es, s)
    ensures Distinct(s.cache.order) && Elements(s.cache.order) == s.cache.entries.Keys
    ensures |s.cache.entries| == |s.cache.order| <= CAPACITY
  {
    RunKeeps(START, es, s);
    DistinctSize(s.cache.order);
    assert |s.cache.entries| == |s.cache.entries.Keys|;
  }

  /** A key is retained exactly while fewer other keys than fit were set or hit since it was. */
  lemma RetainedExactlyWhen(es: seq<Event>, s: Trace, key: string)
    requires Runs(START, es, s)
    ensures key in s.cache.entries <==> key in s.touches && |Elements(After(s.touches, key))| < CAPACITY
  {
    RunKeeps(START, es, s);
    RecencyIsDistinct(s.touches);
    TouchedIsRecent(s.touches, key);
    assert key in s.cache.entries <==> key in Elements(s.cache.order);
    if key in s.touches {
      var after := After(s.touches, key);
      var older := RecencySplit(s.touches, key);
      RecencyIsDistinct(after);
      DistinctSize(Recency(after));
      InSecond(s.forgotten, s.cache.order, older, key, Recency(after));
    }
  }

  lemma TouchedIsRecent<K>(touches: seq<K>, key: K)
    ensures key in touches <==> key in Recency(touches)
  {
    RecencyIsDistinct(touches);
    assert key in Elements(touches) <==> key in Elements(Recency(touches));
  }

  /** Of a list cut in two, the second part holds a key exactly when less follows the key than that part is long. */
  lemma InSecond<K>(first: seq<K>, second: seq<K>, older: seq<K>, key: K, newer: seq<K>)
    requires Distinct(first + second) && first + second == older + [key] + newer
    ensures key in second <==> |newer| < |second|
  {
    assert (first + second)[|older|] == key;
    if |newer| < |second| {
      assert second[|older| - |first|] == key;
    } else {
      assert first[|older|] == key;
      NotInBoth(first, second, key);
    }
  }

  /** A hit returns the value last set for that key, and a key that is not hit was evicted or never set. */
  lemma HitReturnsLastSet(es: seq<Event>, s: Trace, song: string, buckets: nat)
    requires Runs(START, es, s)
    ensures var key := CacheKey(song, buckets);
            match Get(s.cache, key).1
            case Some(entry) => key in s.values && entry == s.values[key]
            case None => key !in s.touches || |Elements(After(s.touches, key))| >= CAPACITY
  {
    RunKeeps(START, es, s);
    RetainedExactlyWhen(es, s, CacheKey(song, buckets));
  }
}
