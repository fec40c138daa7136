/**
The AirPlay audio tap: a ring of slots that drops its oldest chunk when it is full, filled by the audio
thread and drained by the forwarder, which lets only the newest epoch through.
*/
module AirPlayTap {
  import opened Basics

  datatype Chunk = Chunk(epoch: nat, sampleRate: nat, channels: nat, samples: seq<real>)

  // ---------- the bounded queue ----------

  /** Accepting a chunk: a full queue loses its oldest one. */
  function Accept(queue: seq<Chunk>, capacity: nat, chunk: Chunk): seq<Chunk>
    requires capacity > 0 && |queue| <= capacity
  {
    if |queue| < capacity then queue + [chunk] else queue[1..] + [chunk]
  }

  /** The remainder wraps at most once: no index of the ring is twice the capacity. */
  lemma Wraps(index: nat, capacity: nat)
    requires 0 < capacity && index < 2 * capacity
    ensures index % capacity == if index < capacity then index else index - capacity
  {
    if index >= capacity {
      assert index == 1 * capacity + (index - capacity);
    }
  }

  /** Where the `offset`-th oldest chunk is. */
  function Slot(head: nat, offset: nat, capacity: nat): nat {
    if head + offset < capacity then head + offset
    else if head + offset < 2 * capacity then head + offset - capacity
    else 0
  }

  /** The `len` slots from `head` on hold the queue, going around the end of the ring. */
  ghost predicate Holds(ring: seq<Option<Chunk>>, head: nat, len: nat, queue: seq<Chunk>) {
    && head < |ring| && |queue| == len <= |ring|
    && (forall k | 0 <= k < len :: Slot(head, k, |ring|) < |ring| && ring[Slot(head, k, |ring|)] == Some(queue[k]))
  }

  lemma FullRingPushed(ring: seq<Option<Chunk>>, head: nat, queue: seq<Chunk>, chunk: Chunk)
    requires Holds(ring, head, |ring|, queue)
    ensures Holds(ring[head := Some(chunk)], Slot(head, 1, |ring|), |ring|, queue[1..] + [chunk])
  {
  }

  lemma RingPushed(ring: seq<Option<Chunk>>, head: nat, len: nat, queue: seq<Chunk>, chunk: Chunk)
    requires Holds(ring, head, len, queue) && len < |ring|
    ensures Holds(ring[Slot(head, len, |ring|) := Some(chunk)], head, len + 1, queue + [chunk])
  {
  }

  class AirPlayAudioBuffer {
    const slots: array<Option<Chunk>>
    var head: nat
    var len: nat
    ghost var queue: seq<Chunk>

    ghost predicate Valid()
      reads this, slots
    {
      head < slots.Length && Holds(slots[..], head, len, queue)
    }

    constructor (capacity: nat)
      ensures Valid() && fresh(slots) && queue == []
      ensures slots.Length == if capacity == 0 then 1 else capacity
    {
      slots := new Option<Chunk>[if capacity == 0 then 1 else capacity](_ => None);
      head, len, queue := 0, 0, [];
    }

    method Push(chunk: Chunk)
      requires Valid()
      modifies this, slots
      ensures Valid() && queue == Accept(old(queue), slots.Length, chunk)
    {
      if len == slots.Length {
        Overwrite(chunk);
      } else {
        Append(chunk);
      }
    }

    /** A full ring loses its oldest chunk. */
    method Overwrite(chunk: Chunk)
      requires Valid() && len == slots.Length
      modifies this, slots
      ensures Valid() && queue == Accept(old(queue), slots.Length, chunk)
    {
      ghost var ring := slots[..];
      FullRingPushed(ring, head, queue, chunk);
      slots[head] := Some(chunk);
      assert slots[..] == ring[head := Some(chunk)];
      Wraps(head + 1, slots.Length);
      head := (head + 1) % slots.Length;
      queue := Accept(queue, slots.Length, chunk);
    }

    method Append(chunk: Chunk)
      requires Valid() && len < slots.Length
      modifies this, slots
      ensures Valid() && queue == Accept(old(queue), slots.Length, chunk)
    {
      ghost var ring := slots[..];
      Wraps(head + len, slots.Length);
      var insertIndex := (head + len) % slots.Length;
      RingPushed(ring, head, len, queue, chunk);
      slots[insertIndex] := Some(chunk);
      assert slots[..] == ring[insertIndex := Some(chunk)];
      len := len + 1;
      queue := Accept(queue, slots.Length, chunk);
    }

    method Drain() returns (drained: seq<Chunk>)
      requires Valid()
      modifies this, slots
      ensures Valid() && drained == old(queue) && queue == []
    {
      drained := [];
      for offset := 0 to len
        invariant head == old(head) && len == old(len) && queue == old(queue)
        invariant drained == queue[..offset]
        invariant forall k | offset <= k < len :: Slot(head, k, slots.Length) < slots.Length
                                                  && slots[Slot(head, k, slots.Length)] == Some(queue[k])
      {
        Wraps(head + offset, slots.Length);
        var index := (head + offset) % slots.Length;
        assert index == Slot(head, offset, slots.Length);
        assert slots[index] == Some(queue[offset]);
        assert queue[..offset + 1] == queue[..offset] + [queue[offset]];
        if slots[index].Some? {
          drained := drained + [slots[index].value];
          slots[index] := None;
        }
      }
      head, len, queue := 0, 0, [];
    }
  }

  /** The last `n` chunks of a list, or all of it. */
  function LastOf(chunks: seq<Chunk>, n: nat): seq<Chunk> {
    if |chunks| <= n then chunks else chunks[|chunks| - n..]
  }

  function AcceptAll(queue: seq<Chunk>, capacity: nat, chunks: seq<Chunk>): (after: seq<Chunk>)
    requires capacity > 0 && |queue| <= capacity
    ensures |after| <= capacity
    decreases |chunks|
  {
    if chunks == [] then queue
    else Accept(AcceptAll(queue, capacity, chunks[..|chunks| - 1]), capacity, chunks[|chunks| - 1])
  }

  lemma AcceptLast(chunks: seq<Chunk>, capacity: nat, chunk: Chunk)
    requires capacity > 0
    ensures Accept(LastOf(chunks, capacity), capacity, chunk) == LastOf(chunks + [chunk], capacity)
  {
  }

  /** However many chunks are accepted between two drains, a drain returns the newest ones in order. */
  lemma {:induction false} DrainReturnsNewest(capacity: nat, chunks: seq<Chunk>)
    requires capacity > 0
    ensures AcceptAll([], capacity, chunks) == LastOf(chunks, capacity)
    decreases |chunks|
  {
    if chunks != [] {
      var n := |chunks| - 1;
      DrainReturnsNewest(capacity, chunks[..n]);
      AcceptLast(chunks[..n], capacity, chunks[n]);
      assert chunks == chunks[..n] + [chunks[n]];
    }
  }

  // ---------- the epoch filter ----------

  function NewestEpoch(current: nat, chunks: seq<Chunk>): nat {
    if chunks == [] then current else Max(chunks[|chunks| - 1].epoch, NewestEpoch(current, chunks[..|chunks| - 1]))
  }

  function OfEpoch(chunks: seq<Chunk>, epoch: nat): seq<Chunk> {
    if chunks == [] then []
    else OfEpoch(chunks[..|chunks| - 1], epoch)
         + if chunks[|chunks| - 1].epoch == epoch then [chunks[|chunks| - 1]] else []
  }

  function SelectForwardable(current: nat, chunks: seq<Chunk>): (nat, seq<Chunk>) {
    var next := NewestEpoch(current, chunks);
    (next, OfEpoch(chunks, next))
  }

  class AirPlayAudioTap {
    var epoch: nat
    const buffer: AirPlayAudioBuffer

    ghost predicate Valid()
      reads this, buffer, buffer.slots
    {
      buffer.Valid()
    }

    constructor (capacity: nat)
      ensures Valid() && fresh(buffer) && fresh(buffer.slots) && epoch == 1 && buffer.queue == []
      ensures buffer.slots.Length == Max(capacity, 1)
    {
      epoch := 1;
      buffer := new AirPlayAudioBuffer(Max(capacity, 1));
    }

    method BumpEpoch() returns (now: nat)
      requires Valid()
      modifies this`epoch
      ensures Valid() && epoch == now == old(epoch) + 1
    {
      epoch := epoch + 1;
      now := epoch;
    }

    /** `locked` says that another thread holds the buffer at this moment. */
    method PushInterleaved(sampleRate: nat, channels: nat, samples: seq<real>, locked: bool)
      requires Valid()
      modifies buffer, buffer.slots
      ensures Valid()
      ensures samples == [] || locked ==> buffer.queue == old(buffer.queue)
      ensures samples != [] && !locked ==>
        buffer.queue == Accept(old(buffer.queue), buffer.slots.Length, Chunk(epoch, sampleRate, channels, samples))
    {
      if samples == [] {
        return;
      }
      if locked {
        return;
      }
      buffer.Push(Chunk(epoch, sampleRate, channels, samples));
    }

    /** One round of the forwarder's loop: the chunks it sends on and the epoch it goes on with. */
    method ForwardOnce(current: nat) returns (next: nat, batch: seq<Chunk>)
      requires Valid()
      modifies buffer, buffer.slots
      ensures Valid() && buffer.queue == []
      ensures (next, batch) == if old(buffer.queue) == [] then (current, [])
                               else SelectForwardable(current, old(buffer.queue))
    {
      var chunks := buffer.Drain();
      if chunks == [] {
        return current, [];
      }
      var selected := SelectForwardable(current, chunks);
      next, batch := selected.0, selected.1;
    }
  }

  // ---------- runs of the tap ----------

  /**
  The last four fields are history: what was accepted since the last drain, and all that was
  accepted, drained, forwarded.
  */
  datatype State = State(
    epoch: nat, capacity: nat, queue: seq<Chunk>, current: nat,
    since: seq<Chunk>, accepted: seq<Chunk>, drained: seq<Chunk>, forwarded: seq<Chunk>)

  datatype Event =
    | PushSamples(sampleRate: nat, channels: nat, samples: seq<real>, locked: bool)
    | BumpEpoch
    | Forward

  function Initial(capacity: nat): State {
    State(1, Max(capacity, 1), [], 0, [], [], [], [])
  }

  function Pushed(s: State, chunk: Chunk): State
    requires s.capacity > 0 && |s.queue| <= s.capacity
  {
    s.(queue := Accept(s.queue, s.capacity, chunk), since := s.since + [chunk], accepted := s.accepted + [chunk])
  }

  /** Pushing waits for nobody: empty samples and a busy buffer are given up at once. */
  function Step(s: State, e: Event): State
    requires s.capacity > 0 && |s.queue| <= s.capacity
  {
    match e
    case PushSamples(rate, channels, samples, locked) =>
      if samples == [] || locked then s
      else
        var chunk := Chunk(s.epoch, rate, channels, samples);
        Pushed(s, chunk)
    case BumpEpoch => s.(epoch := s.epoch + 1)
    case Forward =>
      if s.queue == [] then s
      else
        var (next, batch) := SelectForwardable(s.current, s.queue);
        s.(queue := [], since := [], current := next, drained := s.drained + s.queue, forwarded := s.forwarded + batch)
  }

  predicate Subsequence(a: seq<Chunk>, b: seq<Chunk>)
    decreases |b|
  {
    if a == [] then true
    else if b == [] then false
    else
      || (a[|a| - 1] == b[|b| - 1] && Subsequence(a[..|a| - 1], b[..|b| - 1]))
      || Subsequence(a, b[..|b| - 1])
  }

  predicate Ascending(chunks: seq<Chunk>) {
    forall i, j | 0 <= i < j < |chunks| :: chunks[i].epoch <= chunks[j].epoch
  }

  /** The queue is the end of what was accepted; drained and forwarded chunks come from before it, in order. */
  ghost predicate OrderOk(s: State) {
    && s.capacity > 0 && s.queue == LastOf(s.since, s.capacity)
    && |s.queue| <= |s.accepted| && s.accepted[|s.accepted| - |s.queue|..] == s.queue
    && Subsequence(s.drained, s.accepted[..|s.accepted| - |s.queue|])
    && Subsequence(s.forwarded, s.drained)
  }

  ghost predicate EpochsOk(s: State) {
    && Ascending(s.queue) && (forall c <- s.queue :: s.current <= c.epoch <= s.epoch)
    && Ascending(s.forwarded) && (forall c <- s.forwarded :: c.epoch <= s.current)
    && s.current <= s.epoch
  }

  ghost predicate Inv(s: State) {
    OrderOk(s) && EpochsOk(s)
  }

  lemma {:induction false} SubsequenceExtends(a: seq<Chunk>, b: seq<Chunk>, c: Chunk)
    requires Subsequence(a, b)
    ensures Subsequence(a, b + [c]) && Subsequence(a + [c], b + [c])
  {
    assert (b + [c])[..|b|] == b && (a + [c])[..|a|] == a;
  }

  lemma {:induction false} SubsequenceAppend(a: seq<Chunk>, b: seq<Chunk>, x: seq<Chunk>, y: seq<Chunk>)
    requires Subsequence(a, b) && Subsequence(x, y)
    ensures Subsequence(a + x, b + y)
    decreases |y|
  {
    if x == [] {
      if y == [] {
        assert a + x == a && b + y == b;
      } else {
        SubsequenceAppend(a, b, x, y[..|y| - 1]);
        assert (b + y)[..|b + y| - 1] == b + y[..|y| - 1];
        SubsequenceExtends(a + x, b + y[..|y| - 1], y[|y| - 1]);
        assert b + y == b + y[..|y| - 1] + [y[|y| - 1]];
      }
    } else {
      var m, n := |x| - 1, |y| - 1;
      assert b + y == (b + y[..n]) + [y[n]];
      if x[m] == y[n] && Subsequence(x[..m], y[..n]) {
        SubsequenceAppend(a, b, x[..m], y[..n]);
        assert a + x == (a + x[..m]) + [x[m]];
        SubsequenceExtends(a + x[..m], b + y[..n], y[n]);
      } else {
        SubsequenceAppend(a, b, x, y[..n]);
        SubsequenceExtends(a + x, b + y[..n], y[n]);
      }
    }
  }

  lemma {:induction false} SelfSubsequence(a: seq<Chunk>)
    ensures Subsequence(a, a)
    decreases |a|
  {
    if a != [] {
      SelfSubsequence(a[..|a| - 1]);
    }
  }

  /** In a batch of ascending epochs the newest epoch is that of its last chunk. */
  lemma {:induction false} NewestIsLast(current: nat, chunks: seq<Chunk>)
    requires chunks != [] && Ascending(chunks) && forall c <- chunks :: current <= c.epoch
    ensures NewestEpoch(current, chunks) == chunks[|chunks| - 1].epoch
    decreases |chunks|
  {
    var n := |chunks| - 1;
    if n > 0 {
      NewestIsLast(current, chunks[..n]);
    }
  }

  lemma {:induction false} FilterIsSubsequence(chunks: seq<Chunk>, epoch: nat)
    ensures Subsequence(OfEpoch(chunks, epoch), chunks)
    ensures forall c <- OfEpoch(chunks, epoch) :: c.epoch == epoch
    decreases |chunks|
  {
    if chunks != [] {
      var n := |chunks| - 1;
      FilterIsSubsequence(chunks[..n], epoch);
      assert chunks == chunks[..n] + [chunks[n]];
      SubsequenceExtends(OfEpoch(chunks[..n], epoch), chunks[..n], chunks[n]);
      if chunks[n].epoch == epoch {
        assert OfEpoch(chunks, epoch) == OfEpoch(chunks[..n], epoch) + [chunks[n]];
      } else {
        assert OfEpoch(chunks, epoch) == OfEpoch(chunks[..n], epoch);
      }
    }
  }

  /** Each chunk of the epoch passes the filter as often as it comes, and no other chunk does. */
  lemma {:induction false} FilterKeeps(chunks: seq<Chunk>, epoch: nat, c: Chunk)
    ensures multiset(OfEpoch(chunks, epoch))[c] == if c.epoch == epoch then multiset(chunks)[c] else 0
    decreases |chunks|
  {
    if chunks != [] {
      var n := |chunks| - 1;
      FilterKeeps(chunks[..n], epoch, c);
      assert chunks == chunks[..n] + [chunks[n]];
    }
  }

  /** What overflows is lost for the forwarder, and only that: the queue is always the newest accepted chunks. */
  lemma PushOrder(s: State, chunk: Chunk)
    requires OrderOk(s)
    ensures |s.queue| <= s.capacity && OrderOk(Pushed(s, chunk))
  {
    AcceptLast(s.since, s.capacity, chunk);
    PushSplits(s.queue, s.accepted, s.capacity, chunk);
    StillDrained(s.drained, s.accepted, |s.accepted| - |s.queue|);
  }

  lemma StillDrained(drained: seq<Chunk>, accepted: seq<Chunk>, before: nat)
    requires before <= |accepted| && Subsequence(drained, accepted[..before])
    ensures before < |accepted| ==> Subsequence(drained, accepted[..before] + [accepted[before]])
  {
    if before < |accepted| {
      SubsequenceExtends(drained, accepted[..before], accepted[before]);
    }
  }

  /** A chunk accepted by a full queue moves the oldest queued one out of it, and by any other moves none. */
  lemma PushSplits(queue: seq<Chunk>, accepted: seq<Chunk>, capacity: nat, chunk: Chunk)
    requires 0 < capacity && |queue| <= capacity
    requires |queue| <= |accepted| && accepted[|accepted| - |queue|..] == queue
    ensures var before := |accepted| - |queue|;
            var after := |accepted| + 1 - |Accept(queue, capacity, chunk)|;
            && 0 <= before <= after && (accepted + [chunk])[after..] == Accept(queue, capacity, chunk)
            && (accepted + [chunk])[..after]
               == if |queue| < capacity then accepted[..before] else accepted[..before] + [accepted[before]]
  {
    var before := |accepted| - |queue|;
    if |queue| < capacity {
      assert (accepted + [chunk])[before..] == queue + [chunk];
    } else {
      assert (accepted + [chunk])[before + 1..] == queue[1..] + [chunk];
    }
  }

  lemma PushEpochs(s: State, chunk: Chunk)
    requires EpochsOk(s) && s.capacity > 0 && |s.queue| <= s.capacity && chunk.epoch == s.epoch
    ensures EpochsOk(Pushed(s, chunk))
  {
    var queue := Accept(s.queue, s.capacity, chunk);
    forall c <- queue ensures s.current <= c.epoch <= s.epoch {
      assert c in s.queue || c == chunk;
    }
    assert Ascending(queue) by {
      var rest := if |s.queue| < s.capacity then s.queue else s.queue[1..];
      assert forall c <- rest :: c in s.queue;
      assert queue == rest + [chunk];
    }
  }

  lemma AllDrained(drained: seq<Chunk>, accepted: seq<Chunk>, queue: seq<Chunk>)
    requires |queue| <= |accepted| && accepted[|accepted| - |queue|..] == queue
    requires Subsequence(drained, accepted[..|accepted| - |queue|])
    ensures Subsequence(drained + queue, accepted)
  {
    var before := |accepted| - |queue|;
    SelfSubsequence(queue);
    SubsequenceAppend(drained, accepted[..before], queue, queue);
    assert accepted[..before] + queue == accepted;
  }

  /** Draining the queue and forwarding one epoch of it keeps both in the order accepted. */
  lemma DrainedInOrder(forwarded: seq<Chunk>, drained: seq<Chunk>, accepted: seq<Chunk>, queue: seq<Chunk>, epoch: nat)
    requires |queue| <= |accepted| && accepted[|accepted| - |queue|..] == queue
    requires Subsequence(drained, accepted[..|accepted| - |queue|]) && Subsequence(forwarded, drained)
    ensures Subsequence(drained + queue, accepted[..|accepted|])
    ensures Subsequence(forwarded + OfEpoch(queue, epoch), drained + queue)
  {
    assert accepted[..|accepted|] == accepted;
    AllDrained(drained, accepted, queue);
    FilterIsSubsequence(queue, epoch);
    SubsequenceAppend(forwarded, drained, OfEpoch(queue, epoch), queue);
  }

  lemma ForwardOrder(s: State)
    requires OrderOk(s) && s.queue != []
    ensures OrderOk(Step(s, Forward))
  {
    var (next, batch) := SelectForwardable(s.current, s.queue);
    DrainedInOrder(s.forwarded, s.drained, s.accepted, s.queue, next);
  }

  lemma ForwardEpochs(s: State)
    requires EpochsOk(s) && s.queue != [] && s.capacity > 0 && |s.queue| <= s.capacity
    ensures EpochsOk(Step(s, Forward))
  {
    var t := Step(s, Forward);
    NewestIsLast(s.current, s.queue);
    FilterIsSubsequence(s.queue, t.current);
    assert s.queue[|s.queue| - 1] in s.queue;
    var batch := OfEpoch(s.queue, t.current);
    forall i, j | 0 <= i < j < |t.forwarded| ensures t.forwarded[i].epoch <= t.forwarded[j].epoch {
      if j >= |s.forwarded| {
        assert t.forwarded[j] in batch;
        assert i < |s.forwarded| ==> t.forwarded[i] in s.forwarded;
        assert i >= |s.forwarded| ==> t.forwarded[i] in batch;
      }
    }
  }

  lemma StepKeeps(s: State, e: Event)
    requires Inv(s)
    ensures Inv(Step(s, e))
  {
    match e {
      case PushSamples(rate, channels, samples, locked) =>
        if samples != [] && !locked {
          PushOrder(s, Chunk(s.epoch, rate, channels, samples));
          PushEpochs(s, Chunk(s.epoch, rate, channels, samples));
        }
      case BumpEpoch =>
      case Forward =>
        if s.queue != [] {
          ForwardOrder(s);
          ForwardEpochs(s);
        }
    }
  }

  ghost predicate Runs(s: State, es: seq<Event>, t: State)
    requires s.capacity > 0 && |s.queue| <= s.capacity
    decreases |es|
  {
    if es == [] then s == t else Runs(Step(s, es[0]), es[1..], t)
  }

  lemma {:induction false} RunKeeps(s: State, es: seq<Event>, t: State)
    requires Inv(s) && Runs(s, es, t)
    ensures Inv(t)
    decreases |es|
  {
    if es != [] {
      StepKeeps(s, es[0]);
      RunKeeps(Step(s, es[0]), es[1..], t);
    }
  }

  /** What one event offers: samples that are there, to a buffer that is free. */
  function OfferOf(epoch: nat, e: Event): seq<Chunk> {
    if e.PushSamples? && !e.locked && |e.samples| > 0 then [Chunk(epoch, e.sampleRate, e.channels, e.samples)] else []
  }

  function EpochAfter(epoch: nat, e: Event): nat {
    if e.BumpEpoch? then epoch + 1 else epoch
  }

  /** What a run offers that begins in this epoch. */
  function Offered(epoch: nat, es: seq<Event>): seq<Chunk>
    decreases |es|
  {
    if es == [] then [] else OfferOf(epoch, es[0]) + Offered(EpochAfter(epoch, es[0]), es[1..])
  }

  function Bumps(es: seq<Event>): nat {
    if es == [] then 0 else Bumps(es[1..]) + if es[0].BumpEpoch? then 1 else 0
  }

  lemma StepAccepts(s: State, e: Event)
    requires s.capacity > 0 && |s.queue| <= s.capacity
    ensures Step(s, e).accepted == s.accepted + OfferOf(s.epoch, e) && Step(s, e).epoch == EpochAfter(s.epoch, e)
  {
  }

  /** What the first event adds and what the others add. */
  ghost predicate Adds(s: State, es: seq<Event>, t: State) {
    t.accepted == s.accepted + Offered(s.epoch, es) && t.epoch == s.epoch + Bumps(es)
  }

  lemma AddsAlong(s: State, mid: State, es: seq<Event>, t: State)
    requires es != [] && Adds(mid, es[1..], t)
    requires mid.accepted == s.accepted + OfferOf(s.epoch, es[0]) && mid.epoch == EpochAfter(s.epoch, es[0])
    ensures Adds(s, es, t)
  {
    assert t.accepted == s.accepted + (OfferOf(s.epoch, es[0]) + Offered(mid.epoch, es[1..]));
  }

  lemma {:induction false} AcceptedFrom(s: State, es: seq<Event>, t: State)
    requires Inv(s) && Runs(s, es, t)
    ensures Adds(s, es, t)
    decreases |es|
  {
    if es != [] {
      StepKeeps(s, es[0]);
      AcceptedFrom(Step(s, es[0]), es[1..], t);
      StepAccepts(s, es[0]);
      AddsAlong(s, Step(s, es[0]), es, t);
    }
  }

  /** Over every run the tap accepts exactly what is offered, each chunk in the epoch begun last before it. */
  lemma AcceptedIsOffered(capacity: nat, es: seq<Event>, t: State)
    requires Runs(Initial(capacity), es, t)
    ensures t.accepted == Offered(1, es) && t.epoch == 1 + Bumps(es)
  {
    AcceptedFrom(Initial(capacity), es, t);
    var offered := Offered(1, es);
    assert [] + offered == offered;
  }

  /** Over every run the next drain brings, in order, the newest chunks accepted since the last one: all that fit. */
  lemma DrainBringsNewest(capacity: nat, es: seq<Event>, t: State)
    requires Runs(Initial(capacity), es, t)
    ensures t.queue == LastOf(t.since, t.capacity)
    ensures |t.queue| == if |t.since| < t.capacity then |t.since| else t.capacity
    ensures t.capacity > 0 && Step(t, Forward).drained == t.drained + t.queue && Step(t, Forward).since == []
  {
    RunKeeps(Initial(capacity), es, t);
    DrainedIsLast(t);
  }

  lemma DrainedIsLast(t: State)
    requires t.capacity > 0 && t.queue == LastOf(t.since, t.capacity)
    ensures |t.queue| == if |t.since| < t.capacity then |t.since| else t.capacity
    ensures Step(t, Forward).drained == t.drained + t.queue && Step(t, Forward).since == []
  {
  }

  /**
  Over every run: what is forwarded is a subsequence of what was drained, that of what was accepted before the
  queued chunks, and the epochs forwarded never go back.
  */
  lemma ForwardedInOrder(capacity: nat, es: seq<Event>, t: State)
    requires Runs(Initial(capacity), es, t)
    ensures OrderOk(t) && Ascending(t.forwarded)
  {
    RunKeeps(Initial(capacity), es, t);
  }

  /** The chunks of a queue that have its last chunk's epoch, each as often as it is there. */
  ghost predicate IsNewestOf(batch: seq<Chunk>, queue: seq<Chunk>)
    requires queue != []
  {
    && queue[|queue| - 1] in batch
    && (forall c: Chunk :: multiset(batch)[c] == if c.epoch == queue[|queue| - 1].epoch then multiset(queue)[c] else 0)
  }

  /**
  The newest epoch of an ascending batch is forwarded whole: none of its chunks lost or
  doubled, the last among them.
  */
  lemma {:induction false} NewestOfBatch(current: nat, chunks: seq<Chunk>)
    requires chunks != [] && Ascending(chunks) && forall c <- chunks :: current <= c.epoch
    ensures var (next, batch) := SelectForwardable(current, chunks);
            next == chunks[|chunks| - 1].epoch && IsNewestOf(batch, chunks)
  {
    NewestIsLast(current, chunks);
    var last := chunks[|chunks| - 1];
    forall c: Chunk
      ensures multiset(OfEpoch(chunks, last.epoch))[c] == if c.epoch == last.epoch then multiset(chunks)[c] else 0
    {
      FilterKeeps(chunks, last.epoch, c);
    }
    assert last in multiset(chunks);
    assert last in multiset(OfEpoch(chunks, last.epoch));
  }

  /**
  Every drain that brings anything forwards something: all its chunks of the newest epoch, none lost or
  doubled, and the last chunk it brought among them. So the sound never dies while chunks arrive.
  */
  lemma NewestEpochIsForwarded(capacity: nat, es: seq<Event>, t: State)
    requires Runs(Initial(capacity), es, t) && t.queue != []
    ensures t.capacity > 0 && |t.queue| <= t.capacity
    ensures exists batch: seq<Chunk> :: IsNewestOf(batch, t.queue) && Step(t, Forward).forwarded == t.forwarded + batch
    ensures Step(t, Forward).current == t.queue[|t.queue| - 1].epoch
  {
    RunKeeps(Initial(capacity), es, t);
    assert forall c <- t.queue :: t.current <= c.epoch;
    NewestOfBatch(t.current, t.queue);
    assert IsNewestOf(SelectForwardable(t.current, t.queue).1, t.queue);
  }
}
