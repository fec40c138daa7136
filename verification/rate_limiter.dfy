/**
The trailing rate limiter: the first value of a burst is delivered at once, later ones replace each other
until a timer, set for the rest of the interval, delivers the newest.
*/
module RateLimiter {
  import opened Basics

  // ---------- the limiter ----------

  /** `timer` is the earliest moment at which the armed timer may fire. */
  datatype Limiter<T> = Limiter(lastRunMs: int, hasRun: bool, timer: Option<int>, pending: Option<T>)

  /** What may happen, with what the clock showed; a call looks at the clock to decide and again to act. */
  datatype Event<T> =
    | Call(value: T, checked: int, at: int)
    | Fire(at: int)
    | Flush(at: int)
    | Cancel(at: int)

  /** The state after an event, and the value delivered by it. */
  function Act<T>(l: Limiter<T>, interval: int, e: Event<T>): (Limiter<T>, Option<T>) {
    match e
    case Call(value, checked, at) =>
      if !l.hasRun || checked - l.lastRunMs >= interval then
        (Limiter(at, true, None, None), Some(value))
      else
        var armed := if l.timer.Some? then l.timer else Some(at + Max(0, interval - (at - l.lastRunMs)));
        (l.(pending := Some(value), timer := armed), None)
    case Fire(at) =>
      if l.pending.None? then (l.(timer := None), None)
      else (Limiter(at, true, None, None), l.pending)
    case Flush(at) =>
      if l.pending.None? then (l, None)
      else (Limiter(at, true, None, None), l.pending)
    case Cancel(_) =>
      (l.(timer := None, pending := None), None)
  }

  /** The trace after an event, which keeps the invariant. */
  ghost function Grown<T(!new)>(s: Trace<T>, interval: int, e: Event<T>): (t: Trace<T>)
    requires Inv(s, interval) && Possible(s, e)
    ensures t == Step(s, interval, e) && Inv(t, interval)
  {
    StepKeeps(s, interval, e);
    Step(s, interval, e)
  }

  /** What an armed timer will deliver: the newest offer, an interval after the last delivery or later. */
  lemma NewestWaits<T(!new)>(s: Trace<T>, interval: int, at: int)
    requires Inv(s, interval) && Possible(s, Event.Fire(at))
    ensures s.offers != [] && s.limiter.pending == Some(s.offers[|s.offers| - 1])
    ensures at >= s.limiter.lastRunMs + interval
  {
  }

  /** An offer is delivered when an interval has passed; else it waits, and the timer allows for the rest of it. */
  lemma CallSays<T(!new)>(s: Trace<T>, interval: int, value: T, checked: int, at: int)
    requires Inv(s, interval) && Possible(s, Event.Call(value, checked, at))
    ensures var (l, out) := Act(s.limiter, interval, Event.Call(value, checked, at));
            && out == (if !s.limiter.hasRun || checked >= s.limiter.lastRunMs + interval then Some(value) else None)
            && (out.None? ==> l.pending == Some(value) && l.timer.Some? && l.timer.value >= l.lastRunMs + interval)
            && (out.Some? && s.limiter.hasRun ==> at >= s.limiter.lastRunMs + interval)
  {
  }

  /** A flush delivers what waits, which is the newest offer unless that one was delivered or cancelled. */
  lemma FlushSays<T(!new)>(s: Trace<T>, interval: int, at: int)
    requires Inv(s, interval) && Possible(s, Event.Flush(at))
    ensures var (l, out) := Act(s.limiter, interval, Event.Flush(at)); var t := Step(s, interval, Event.Flush(at));
            && out == s.limiter.pending && l.pending.None? && l.timer.None?
            && (t.offers != [] ==> Delivered(t, |t.offers| - 1) || |t.offers| - 1 in t.cancelled)
  {
    StepKeeps(s, interval, Event.Flush(at));
  }

  /** A cancelled offer was not delivered before. */
  lemma CancelSays<T(!new)>(s: Trace<T>, interval: int, at: int)
    requires Inv(s, interval) && Possible(s, Event.Cancel(at))
    ensures var t := Step(s, interval, Event.Cancel(at));
            && t.deliveries == s.deliveries
            && (s.limiter.pending.Some? ==> |t.offers| - 1 in t.cancelled && !Delivered(t, |t.offers| - 1))
  {
    StepKeeps(s, interval, Event.Cancel(at));
  }

  /** `trace` is the limiter's whole past: what was offered, delivered and cancelled, and when. */
  class TrailingRateLimiter<T(!new)> {
    const intervalMs: int
    var lastRunMs: int
    var hasRun: bool
    var timer: Option<int>
    var pending: Option<T>
    var hasPending: bool
    ghost var trace: Trace<T>

    ghost predicate Valid()
      reads this
    {
      hasPending == pending.Some? && trace.limiter == Now() && Inv(trace, intervalMs)
    }

    ghost function Now(): Limiter<T>
      reads this
    {
      Limiter(lastRunMs, hasRun, timer, pending)
    }

    constructor (intervalMs: int, ghost clock: int)
      ensures Valid() && this.intervalMs == intervalMs && trace == Start(clock)
    {
      this.intervalMs := intervalMs;
      lastRunMs, hasRun, timer, pending, hasPending := 0, false, None, None, false;
      trace := Start(clock);
    }

    method ClearPendingTimer()
      modifies this`timer
      ensures timer == None
    {
      if timer.Some? {
        timer := None;
      }
    }

    method Run(value: T, at: int) returns (delivered: Option<T>)
      modifies this`lastRunMs, this`hasRun
      ensures lastRunMs == at && hasRun && delivered == Some(value)
    {
      lastRunMs := at;
      hasRun := true;
      delivered := Some(value);
    }

    method Schedule(at: int)
      modifies this`timer
      ensures timer == if old(timer).Some? then old(timer) else Some(at + Max(0, intervalMs - (at - lastRunMs)))
    {
      if timer.Some? {
        return;
      }
      timer := Some(at + Max(0, intervalMs - (at - lastRunMs)));
    }

    /**
    Delivered at once an interval after the last delivery or later, else it waits, the newest,
    with a timer armed.
    */
    method Call(value: T, checked: int, at: int) returns (delivered: Option<T>)
      requires Valid() && Possible(trace, Event.Call(value, checked, at))
      modifies this
      ensures Valid() && trace == Step(old(trace), intervalMs, Event.Call(value, checked, at))
      ensures delivered == if !old(hasRun) || checked >= old(lastRunMs) + intervalMs then Some(value) else None
      ensures delivered.None? ==> pending == Some(value) && timer.Some? && timer.value >= lastRunMs + intervalMs
      ensures delivered.Some? && old(hasRun) ==> at >= old(lastRunMs) + intervalMs
      ensures delivered.Some? ==> lastRunMs == at && hasRun && pending.None? && timer.None?
      ensures delivered.None? ==>
                && lastRunMs == old(lastRunMs)
                && timer == if old(timer).Some? then old(timer)
                            else Some(if at < lastRunMs + intervalMs then lastRunMs + intervalMs else at)
    {
      CallSays(trace, intervalMs, value, checked, at);
      trace := Grown(trace, intervalMs, Event.Call(value, checked, at));
      delivered := Offer(value, checked, at);
    }

    method Offer(value: T, checked: int, at: int) returns (delivered: Option<T>)
      requires hasPending == pending.Some?
      modifies this`lastRunMs, this`hasRun, this`timer, this`pending, this`hasPending
      ensures hasPending == pending.Some?
      ensures (Now(), delivered) == Act(old(Now()), intervalMs, Event.Call(value, checked, at))
    {
      if !hasRun || checked - lastRunMs >= intervalMs {
        ClearPendingTimer();
        pending := None;
        hasPending := false;
        delivered := Run(value, at);
        return;
      }
      pending := Some(value);
      hasPending := true;
      Schedule(at);
      delivered := None;
    }

    /** A timer that fires has the newest offer to deliver, an interval after the last delivery or later. */
    method Fire(at: int) returns (delivered: Option<T>)
      requires Valid() && Possible(trace, Event.Fire(at))
      modifies this
      ensures Valid() && trace == Step(old(trace), intervalMs, Event.Fire(at))
      ensures old(trace).offers != [] && delivered == Some(old(trace).offers[|old(trace).offers| - 1])
      ensures at >= old(lastRunMs) + intervalMs && timer.None? && pending.None? && lastRunMs == at
    {
      NewestWaits(trace, intervalMs, at);
      trace := Grown(trace, intervalMs, Event.Fire(at));
      timer := None;
      if !hasPending {
        return None;
      }
      var value := pending.value;
      pending := None;
      hasPending := false;
      delivered := Run(value, at);
    }

    /** Delivers the newest offer if it still waits; after it nothing does. */
    method Flush(at: int) returns (delivered: Option<T>)
      requires Valid() && Possible(trace, Event.Flush(at))
      modifies this
      ensures Valid() && trace == Step(old(trace), intervalMs, Event.Flush(at))
      ensures delivered == old(pending) && pending.None? && timer.None?
      ensures lastRunMs == if delivered.Some? then at else old(lastRunMs)
      ensures trace.offers != [] ==> Delivered(trace, |trace.offers| - 1) || |trace.offers| - 1 in trace.cancelled
    {
      FlushSays(trace, intervalMs, at);
      trace := Grown(trace, intervalMs, Event.Flush(at));
      delivered := DeliverPending(at);
    }

    method DeliverPending(at: int) returns (delivered: Option<T>)
      requires hasPending == pending.Some?
      modifies this`lastRunMs, this`hasRun, this`timer, this`pending, this`hasPending
      ensures hasPending == pending.Some? && (Now(), delivered) == Act(old(Now()), intervalMs, Event.Flush(at))
    {
      if !hasPending {
        return None;
      }
      ClearPendingTimer();
      var value := pending.value;
      pending := None;
      hasPending := false;
      delivered := Run(value, at);
    }

    /** The waiting offer, if there is one, is never delivered; what was delivered stays. */
    method Cancel(ghost at: int)
      requires Valid() && Possible(trace, Event.Cancel(at))
      modifies this
      ensures Valid() && trace == Step(old(trace), intervalMs, Event.Cancel(at))
      ensures pending.None? && timer.None? && trace.deliveries == old(trace).deliveries && lastRunMs == old(lastRunMs)
      ensures old(pending).Some? ==> |trace.offers| - 1 in trace.cancelled && !Delivered(trace, |trace.offers| - 1)
    {
      CancelSays(trace, intervalMs, at);
      trace := Grown(trace, intervalMs, Event.Cancel(at));
      ClearPendingTimer();
      pending := None;
      hasPending := false;
    }
  }

  // ---------- runs ----------

  /** A delivery: what was delivered, when, whether a flush did it, and as which of the offers it came. */
  datatype Delivery<T> = Delivery(value: T, at: int, flushed: bool, offer: nat)

  /** A run so far: the limiter, the clock, all offers, all deliveries, the waiting offer and the cancelled ones. */
  datatype Trace<T> = Trace(
    limiter: Limiter<T>, clock: int, offers: seq<T>, deliveries: seq<Delivery<T>>,
    waiting: Option<nat>, cancelled: set<nat>)

  function Start<T>(clock: int): Trace<T> {
    Trace(Limiter(0, false, None, None), clock, [], [], None, {})
  }

  /** The clock never goes back, and a timer fires only while it is armed and never early. */
  predicate Possible<T(!new)>(s: Trace<T>, e: Event<T>) {
    match e
    case Call(_, checked, at) => s.clock <= checked <= at
    case Fire(at) => s.clock <= at && s.limiter.timer.Some? && s.limiter.timer.value <= at
    case Flush(at) => s.clock <= at
    case Cancel(at) => s.clock <= at
  }

  function Step<T>(s: Trace<T>, interval: int, e: Event<T>): Trace<T> {
    var (limiter, out) := Act(s.limiter, interval, e);
    var offers := if e.Call? then s.offers + [e.value] else s.offers;
    var offer := if e.Call? then |s.offers| else if s.waiting.Some? then s.waiting.value else 0;
    Trace(
      limiter, e.at, offers,
      if out.Some? then s.deliveries + [Delivery(out.value, e.at, e.Flush?, offer)] else s.deliveries,
      if limiter.pending.None? then None else if e.Call? then Some(offer) else s.waiting,
      if e.Cancel? && s.waiting.Some? then s.cancelled + {s.waiting.value} else s.cancelled)
  }

  // ---------- the invariant ----------

  /**
  A timer is armed exactly while a value is pending, and for the moment at which the interval is over, or for at once
  if that moment had passed.
  */
  ghost predicate ArmedOk<T(!new)>(s: Trace<T>, interval: int) {
    && (s.limiter.timer.Some? <==> s.limiter.pending.Some?)
    && (s.limiter.pending.Some? ==> s.limiter.hasRun)
    && (s.limiter.timer.Some? ==>
          || s.limiter.timer.value == s.limiter.lastRunMs + interval
          || s.limiter.lastRunMs + interval < s.limiter.timer.value <= s.clock)
  }

  ghost predicate SpacedOk<T(!new)>(s: Trace<T>, interval: int) {
    && (s.limiter.hasRun <==> s.deliveries != [])
    && (s.limiter.hasRun ==> s.limiter.lastRunMs == s.deliveries[|s.deliveries| - 1].at <= s.clock)
    && Spaced(s.deliveries, interval)
  }

  /** Each delivery that no flush caused comes at least an interval after the one before it. */
  ghost predicate Spaced<T>(deliveries: seq<Delivery<T>>, interval: int) {
    forall k | 0 < k < |deliveries| && !deliveries[k].flushed :: deliveries[k].at >= deliveries[k - 1].at + interval
  }

  /** Deliveries name their offers, later deliveries later ones, and each carries the value offered. */
  ghost predicate InOrder<T(!new)>(deliveries: seq<Delivery<T>>, offers: seq<T>) {
    && (forall i | 0 <= i < |deliveries| ::
          deliveries[i].offer < |offers| && deliveries[i].value == offers[deliveries[i].offer])
    && (forall i, j | 0 <= i < j < |deliveries| :: deliveries[i].offer < deliveries[j].offer)
  }

  predicate Delivered<T(!new)>(s: Trace<T>, offer: nat) {
    exists i :: 0 <= i < |s.deliveries| && s.deliveries[i].offer == offer
  }

  /** Only the newest offer waits, and it has not been delivered. */
  ghost predicate WaitingOk<T(!new)>(s: Trace<T>) {
    && (s.waiting.Some? <==> s.limiter.pending.Some?)
    && (s.waiting.Some? ==>
          && s.waiting.value == |s.offers| - 1 && s.limiter.pending.value == s.offers[s.waiting.value]
          && !Delivered(s, s.waiting.value) && s.waiting.value !in s.cancelled)
    && (forall c <- s.cancelled :: c < |s.offers| && !Delivered(s, c))
  }

  /** The newest offer is never just forgotten. */
  ghost predicate LastOk<T(!new)>(s: Trace<T>) {
    s.offers != [] ==>
      Delivered(s, |s.offers| - 1) || s.waiting == Some(|s.offers| - 1) || |s.offers| - 1 in s.cancelled
  }

  ghost predicate Inv<T(!new)>(s: Trace<T>, interval: int) {
    ArmedOk(s, interval) && SpacedOk(s, interval) && InOrder(s.deliveries, s.offers) && WaitingOk(s) && LastOk(s)
  }

  lemma TimingKept<T(!new)>(s: Trace<T>, interval: int, e: Event<T>)
    requires ArmedOk(s, interval) && SpacedOk(s, interval) && Possible(s, e)
    ensures ArmedOk(Step(s, interval, e), interval) && SpacedOk(Step(s, interval, e), interval)
  {
  }

  lemma InOrderKept<T(!new)>(s: Trace<T>, interval: int, e: Event<T>)
    requires InOrder(s.deliveries, s.offers) && WaitingOk(s)
    ensures InOrder(Step(s, interval, e).deliveries, Step(s, interval, e).offers)
  {
    var t := Step(s, interval, e);
    forall i | 0 <= i < |s.deliveries|
      ensures s.deliveries[i].offer < if s.waiting.Some? then s.waiting.value else |s.offers|
    {
      assert s.waiting.Some? ==> !Delivered(s, s.waiting.value);
    }
  }

  /** A step that delivers adds one delivery, and any other none. */
  lemma DeliveredAfter<T(!new)>(s: Trace<T>, t: Trace<T>, offer: nat)
    requires s.deliveries == t.deliveries
             || (t.deliveries != [] && t.deliveries[..|t.deliveries| - 1] == s.deliveries)
    ensures Delivered(t, offer)
       <==> Delivered(s, offer)
            || (s.deliveries != t.deliveries && t.deliveries[|t.deliveries| - 1].offer == offer)
  {
    var n := |t.deliveries| - 1;
    if s.deliveries != t.deliveries {
      assert forall i | 0 <= i < n :: t.deliveries[i] == s.deliveries[i];
      if t.deliveries[n].offer == offer {
        assert Delivered(t, offer);
      }
      if Delivered(s, offer) {
        var i :| 0 <= i < |s.deliveries| && s.deliveries[i].offer == offer;
        assert t.deliveries[i].offer == offer;
      }
    }
  }

  lemma DeliveredIsOffer<T(!new)>(s: Trace<T>, offer: nat)
    requires InOrder(s.deliveries, s.offers) && Delivered(s, offer)
    ensures offer < |s.offers|
  {
  }

  lemma StepDelivers<T>(s: Trace<T>, interval: int, e: Event<T>)
    ensures var t := Step(s, interval, e);
            s.deliveries == t.deliveries || (t.deliveries != [] && t.deliveries[..|t.deliveries| - 1] == s.deliveries)
  {
  }

  /** An offer is new: delivered, or waiting in place of any other. */
  lemma CallKeepsOffers<T(!new)>(s: Trace<T>, interval: int, e: Event<T>)
    requires InOrder(s.deliveries, s.offers) && WaitingOk(s) && e.Call?
    ensures WaitingOk(Step(s, interval, e)) && LastOk(Step(s, interval, e))
  {
    var t := Step(s, interval, e);
    StepDelivers(s, interval, e);
    forall offer: nat | Delivered(s, offer) ensures offer < |s.offers| {
      DeliveredIsOffer(s, offer);
    }
    DeliveredAfter(s, t, |s.offers|);
    forall c <- t.cancelled ensures c < |t.offers| && !Delivered(t, c) {
      DeliveredAfter(s, t, c);
    }
  }

  /** What waits is delivered, if anything does. */
  lemma DeliveryKeepsOffers<T(!new)>(s: Trace<T>, interval: int, e: Event<T>)
    requires InOrder(s.deliveries, s.offers) && WaitingOk(s) && LastOk(s) && (e.Fire? || e.Flush?)
    ensures WaitingOk(Step(s, interval, e)) && LastOk(Step(s, interval, e))
  {
    var t := Step(s, interval, e);
    StepDelivers(s, interval, e);
    if s.offers != [] {
      DeliveredAfter(s, t, |s.offers| - 1);
    }
    forall c <- t.cancelled ensures c < |t.offers| && !Delivered(t, c) {
      DeliveredAfter(s, t, c);
    }
  }

  lemma CancelKeepsOffers<T(!new)>(s: Trace<T>, interval: int, e: Event<T>)
    requires InOrder(s.deliveries, s.offers) && WaitingOk(s) && LastOk(s) && e.Cancel?
    ensures WaitingOk(Step(s, interval, e)) && LastOk(Step(s, interval, e))
  {
    var t := Step(s, interval, e);
    if s.offers != [] {
      DeliveredAfter(s, t, |s.offers| - 1);
    }
    forall c <- t.cancelled ensures c < |t.offers| && !Delivered(t, c) {
      DeliveredAfter(s, t, c);
    }
  }

  lemma OffersKept<T(!new)>(s: Trace<T>, interval: int, e: Event<T>)
    requires InOrder(s.deliveries, s.offers) && WaitingOk(s) && LastOk(s)
    ensures WaitingOk(Step(s, interval, e)) && LastOk(Step(s, interval, e))
  {
    match e {
      case Call(_, _, _) => CallKeepsOffers(s, interval, e);
      case Cancel(_) => CancelKeepsOffers(s, interval, e);
      case _ => DeliveryKeepsOffers(s, interval, e);
    }
  }

  lemma StepKeeps<T(!new)>(s: Trace<T>, interval: int, e: Event<T>)
    requires Inv(s, interval) && Possible(s, e)
    ensures Inv(Step(s, interval, e), interval)
  {
    TimingKept(s, interval, e);
    InOrderKept(s, interval, e);
    OffersKept(s, interval, e);
  }

  ghost predicate Runs<T(!new)>(s: Trace<T>, interval: int, es: seq<Event<T>>, t: Trace<T>)
    decreases |es|
  {
    if es == [] then s == t else Possible(s, es[0]) && Runs(Step(s, interval, es[0]), interval, es[1..], t)
  }

  lemma {:induction false} RunKeeps<T(!new)>(s: Trace<T>, interval: int, es: seq<Event<T>>, t: Trace<T>)
    requires Inv(s, interval) && Runs(s, interval, es, t)
    ensures Inv(t, interval)
    decreases |es|
  {
    if es != [] {
      StepKeeps(s, interval, es[0]);
      RunKeeps(Step(s, interval, es[0]), interval, es[1..], t);
    }
  }

  // ---------- over every run ----------

  /**
  A timer is armed exactly while a value waits, so a timer that fires always has something to deliver; it is due when
  the interval since the last delivery is over, or at once.
  */
  lemma ArmedWhilePending<T(!new)>(clock: int, interval: int, es: seq<Event<T>>, t: Trace<T>, at: int)
    requires Runs(Start(clock), interval, es, t)
    ensures t.limiter.timer.Some? <==> t.limiter.pending.Some?
    ensures Possible(t, Fire(at)) ==> Act(t.limiter, interval, Fire(at)).1.Some?
    ensures t.limiter.timer.Some? ==>
              && t.deliveries != []
              && (var over := t.deliveries[|t.deliveries| - 1].at + interval;
                  over <= t.limiter.timer.value && (t.limiter.timer.value == over || t.limiter.timer.value <= t.clock))
  {
    RunKeeps(Start(clock), interval, es, t);
  }

  /** Two deliveries with no flush between them are at least an interval apart, whatever the two are. */
  lemma {:induction false} SpacedBy<T(!new)>(clock: int, interval: int, es: seq<Event<T>>, t: Trace<T>, i: nat, j: nat)
    requires Runs(Start(clock), interval, es, t)
    requires i < j < |t.deliveries| && forall k | i < k <= j :: !t.deliveries[k].flushed
    ensures t.deliveries[j].at >= t.deliveries[i].at + (j - i) * interval
  {
    RunKeeps(Start(clock), interval, es, t);
    SpacedFrom(t.deliveries, interval, i, j);
  }

  lemma {:induction false} SpacedFrom<T>(deliveries: seq<Delivery<T>>, interval: int, i: nat, j: nat)
    requires Spaced(deliveries, interval)
    requires i <= j < |deliveries| && forall k | i < k <= j :: !deliveries[k].flushed
    ensures deliveries[j].at >= deliveries[i].at + (j - i) * interval
    decreases j
  {
    if i < j {
      SpacedFrom(deliveries, interval, i, j - 1);
      assert (j - i) * interval == (j - 1 - i) * interval + interval;
    }
  }

  /** What is delivered are offers, in the order they came, each at most once; nothing cancelled is among them. */
  lemma DeliveredInOrder<T(!new)>(clock: int, interval: int, es: seq<Event<T>>, t: Trace<T>)
    requires Runs(Start(clock), interval, es, t)
    ensures InOrder(t.deliveries, t.offers)
    ensures forall c <- t.cancelled :: !Delivered(t, c)
  {
    RunKeeps(Start(clock), interval, es, t);
  }

  /** The newest offer is delivered, cancelled, or waiting with a timer set for it: exactly one of them. */
  lemma NewestOfferIsKept<T(!new)>(clock: int, interval: int, es: seq<Event<T>>, t: Trace<T>)
    requires Runs(Start(clock), interval, es, t) && t.offers != []
    ensures var newest := |t.offers| - 1;
            var waits := t.limiter.pending.Some?;
            && (Delivered(t, newest) || newest in t.cancelled || waits)
            && !(Delivered(t, newest) && newest in t.cancelled)
            && (waits ==> !Delivered(t, newest) && newest !in t.cancelled && t.limiter.timer.Some?
                          && t.limiter.pending == Some(t.offers[newest]))
  {
    RunKeeps(Start(clock), interval, es, t);
  }

  /** A flush leaves nothing waiting: unless it was cancelled, the newest offer has been delivered. */
  lemma FlushDeliversNewest<T(!new)>(clock: int, interval: int, es: seq<Event<T>>, t: Trace<T>, at: int)
    requires Runs(Start(clock), interval, es, t) && t.offers != [] && t.clock <= at
    ensures var u := Step(t, interval, Flush(at));
            && u.limiter.timer.None?
            && (|u.offers| - 1 in u.cancelled || Delivered(u, |u.offers| - 1))
  {
    RunKeeps(Start(clock), interval, es, t);
    StepKeeps(t, interval, Flush(at));
  }
}
