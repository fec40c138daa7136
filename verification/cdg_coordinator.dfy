/**
The coordinator of CD+G frame requests: one chain of backend calls at a time, the newest request waiting
behind it, and a serial number that outdates everything when the picture is invalidated. A chain is a
frame call and, when the frame call finds no stream, a status call.
*/
module CdgCoordinator {
  import opened Basics

  datatype Demand = Demand(song: string, generation: nat, positionMs: int, lastFrameVersion: nat)
  datatype Request = Request(demand: Demand, serial: nat)

  datatype Stage = AwaitingFrame | AwaitingStatus
  datatype Chain = Chain(request: Request, stage: Stage)

  datatype Callback =
    | OnFrame(request: Request, generation: nat, version: nat)
    | OnProbe(request: Request, hasCdg: bool, hasFrame: bool, availability: Option<string>)
    | OnError(request: Request)

  /** How a backend call settles; a frame that cannot be parsed fails like a rejected call. */
  datatype Outcome =
    | Frame(generation: nat, version: nat)
    | NoFrame
    | NoStream
    | StatusIs(availability: string)
    | Failed

  /**
  The last three fields are history: callbacks made, requests sent, and the newest one asked
  for since the last invalidation.
  */
  datatype State = State(
    serial: nat, inFlight: bool, pending: Option<Request>, chains: multiset<Chain>,
    callbacks: seq<Callback>, sent: seq<Request>, newest: Option<Request>)

  const INITIAL := State(0, false, None, multiset{}, [], [], None)

  datatype Event =
    | Ask(demand: Demand)
    | Invalidate
    | Settle(chain: Chain, outcome: Outcome, isCurrent: bool)

  function Pump(s: State): State {
    if s.inFlight || s.pending.None? then s
    else s.(pending := None, inFlight := true,
            chains := s.chains + multiset{Chain(s.pending.value, AwaitingFrame)},
            sent := s.sent + [s.pending.value])
  }

  /** The chain is over: whatever waits behind it goes out, unless it is outdated. */
  function Complete(s: State): State {
    Pump(s.(inFlight := false,
            pending := if s.pending.Some? && s.pending.value.serial != s.serial then None else s.pending))
  }

  function Call(s: State, callbacks: seq<Callback>): State {
    s.(callbacks := s.callbacks + callbacks)
  }

  /** The frame call found no stream: the chain goes on with the status call. */
  predicate GoesOn(chain: Chain, outcome: Outcome) {
    chain.stage.AwaitingFrame? && outcome.NoStream?
  }

  /** What the end of a chain reports. */
  function Reports(chain: Chain, outcome: Outcome): seq<Callback> {
    var r := chain.request;
    if chain.stage.AwaitingStatus? then
      [OnProbe(r, false, false, if outcome.StatusIs? then Some(outcome.availability) else None)]
    else match outcome
      case Frame(generation, version) => [OnFrame(r, generation, version), OnProbe(r, true, true, None)]
      case NoFrame => [OnProbe(r, true, false, None)]
      case _ => [OnError(r)]
  }

  function SettleStep(s: State, chain: Chain, outcome: Outcome, isCurrent: bool): State {
    var rest := s.(chains := s.chains - multiset{chain});
    if chain.request.serial != s.serial || !isCurrent then Complete(rest)
    else if GoesOn(chain, outcome) then rest.(chains := rest.chains + multiset{Chain(chain.request, AwaitingStatus)})
    else Complete(Call(rest, Reports(chain, outcome)))
  }

  predicate Possible(s: State, e: Event) {
    e.Settle? ==>
      && e.chain in s.chains
      && (e.chain.stage.AwaitingFrame? ==> !e.outcome.StatusIs?)
      && (e.chain.stage.AwaitingStatus? ==> e.outcome.StatusIs? || e.outcome.Failed?)
  }

  function Step(s: State, e: Event): State
    requires Possible(s, e)
  {
    match e
    case Ask(demand) =>
      var r := Request(demand, s.serial);
      Pump(s.(pending := Some(r), newest := Some(r)))
    case Invalidate => s.(serial := s.serial + 1, pending := None, newest := None)
    case Settle(chain, outcome, isCurrent) => SettleStep(s, chain, outcome, isCurrent)
  }

  // ---------- the invariant ----------

  predicate IsLast<T(==)>(list: seq<T>, x: T) {
    list != [] && list[|list| - 1] == x
  }

  ghost predicate Inv(s: State) {
    && |s.chains| == (if s.inFlight then 1 else 0)
    && (s.inFlight ==> s.sent != [] && (|| Chain(s.sent[|s.sent| - 1], AwaitingFrame) in s.chains
                                        || Chain(s.sent[|s.sent| - 1], AwaitingStatus) in s.chains))
    && (s.pending.Some? ==> s.inFlight && s.pending == s.newest)
    && (s.newest.Some? ==> s.newest.value.serial == s.serial)
    && (s.newest.Some? && s.pending.None? ==> IsLast(s.sent, s.newest.value))
    && (forall r <- s.sent :: r.serial <= s.serial)
  }

  lemma ChainsOf(s: State, chain: Chain)
    requires Inv(s) && chain in s.chains
    ensures s.inFlight && s.chains == multiset{chain} && IsLast(s.sent, chain.request)
  {
    assert |s.chains - multiset{chain}| == 0;
    assert s.chains == (s.chains - multiset{chain}) + multiset{chain};
  }

  /** Nothing in flight: the state between the end of a chain and the next pump. */
  ghost predicate Landed(s: State) {
    && !s.inFlight && s.chains == multiset{}
    && (s.pending.Some? ==> s.pending == s.newest)
    && (s.newest.Some? ==> s.newest.value.serial == s.serial)
    && (s.newest.Some? && s.pending.None? ==> IsLast(s.sent, s.newest.value))
    && (forall r <- s.sent :: r.serial <= s.serial)
  }

  lemma PumpLanded(s: State)
    requires Landed(s)
    ensures Inv(Pump(s))
  {
    if s.pending.Some? {
      assert Chain(s.pending.value, AwaitingFrame) in Pump(s).chains;
      assert |Pump(s).chains| == 1;
    }
  }

  lemma SettleLands(s: State, chain: Chain, callbacks: seq<Callback>)
    requires Inv(s) && chain in s.chains
    ensures Inv(Complete(Call(s.(chains := s.chains - multiset{chain}), callbacks)))
  {
    ChainsOf(s, chain);
    var rest := Call(s.(chains := s.chains - multiset{chain}), callbacks);
    assert rest.chains == multiset{};
    PumpLanded(rest.(inFlight := false));
  }

  lemma SettleMovesOn(s: State, chain: Chain)
    requires Inv(s) && chain in s.chains
    ensures Inv(s.(chains := s.chains - multiset{chain} + multiset{Chain(chain.request, AwaitingStatus)}))
  {
    ChainsOf(s, chain);
    assert s.chains - multiset{chain} + multiset{Chain(chain.request, AwaitingStatus)}
        == multiset{Chain(chain.request, AwaitingStatus)};
  }

  lemma StepKeeps(s: State, e: Event)
    requires Inv(s) && Possible(s, e)
    ensures Inv(Step(s, e))
  {
    match e {
      case Ask(demand) =>
        var r := Request(demand, s.serial);
        if !s.inFlight {
          assert s.chains == multiset{};
          PumpLanded(s.(pending := Some(r), newest := Some(r)));
        }
      case Invalidate =>
      case Settle(chain, outcome, isCurrent) =>
        SettleLands(s, chain, []);
        SettleLands(s, chain, Reports(chain, outcome));
        SettleMovesOn(s, chain);
        assert s.callbacks + [] == s.callbacks;
    }
  }

  ghost predicate Runs(s: State, es: seq<Event>, t: State)
    decreases |es|
  {
    if es == [] then s == t else Possible(s, es[0]) && Runs(Step(s, es[0]), es[1..], t)
  }

  lemma {:induction false} RunKeeps(s: State, es: seq<Event>, t: State)
    requires Inv(s) && Runs(s, es, t)
    ensures Inv(t)
    decreases |es|
  {
    if es != [] {
      StepKeeps(s, es[0]);
      RunKeeps(Step(s, es[0]), es[1..], t);
    }
  }

  // ---------- the promises ----------

  /**
  Over every run: at most one chain is out, a request never waits without a chain ahead of it, the one
  that waits is the newest since the last invalidation, and if none waits that newest one was the last
  to be sent. So nothing that should be shown is forgotten.
  */
  lemma SingleFlightLatestWins(es: seq<Event>, t: State)
    requires Runs(INITIAL, es, t)
    ensures |t.chains| <= 1 && (t.inFlight <==> t.chains != multiset{})
    ensures t.pending.Some? ==> t.inFlight && t.pending == t.newest
    ensures t.newest.Some? && t.pending.None? ==> IsLast(t.sent, t.newest.value)
  {
    RunKeeps(INITIAL, es, t);
  }

  /** The discard of an outdated waiting request never happens: invalidation has already cleared it. */
  lemma DiscardNeverFires(es: seq<Event>, t: State)
    requires Runs(INITIAL, es, t)
    ensures t.pending.Some? ==> t.pending.value.serial == t.serial
    ensures Complete(t) == Pump(t.(inFlight := false))
  {
    RunKeeps(INITIAL, es, t);
  }

  /**
  What a current chain makes of each reply. A frame is shown before it is reported; a stream without a frame now, a
  failed frame call and the answer to a status call are reported only; without a stream the status is asked for first.
  */
  predicate MadeFor(chain: Chain, outcome: Outcome, made: seq<Callback>) {
    var r := chain.request;
    && (chain.stage.AwaitingFrame? && outcome.Frame? ==>
          && |made| == 2 && made[0] == OnFrame(r, outcome.generation, outcome.version)
          && made[1] == OnProbe(r, true, true, None))
    && (chain.stage.AwaitingFrame? && outcome.NoFrame? ==> made == [OnProbe(r, true, false, None)])
    && (chain.stage.AwaitingFrame? && outcome.Failed? ==> made == [OnError(r)])
    && (chain.stage.AwaitingFrame? && outcome.NoStream? ==> made == [])
    && (chain.stage.AwaitingStatus? && outcome.StatusIs? ==>
          made == [OnProbe(r, false, false, Some(outcome.availability))])
    && (chain.stage.AwaitingStatus? && outcome.Failed? ==> made == [OnProbe(r, false, false, None)])
  }

  /** Every callback of a step is for the settled request, which was neither invalidated nor out of date. */
  lemma CallbacksAreCurrent(s: State, e: Event)
    requires Possible(s, e)
    ensures s.callbacks <= Step(s, e).callbacks
    ensures var added := Step(s, e).callbacks[|s.callbacks|..];
            && (added != [] ==> e.Settle? && e.isCurrent && e.chain.request.serial == s.serial)
            && (forall c <- added :: e.Settle? && c.request == e.chain.request)
            && (e.Settle? && e.isCurrent && e.chain.request.serial == s.serial ==>
                  && MadeFor(e.chain, e.outcome, added)
                  && (added == [] <==> e.chain.stage.AwaitingFrame? && e.outcome.NoStream?))
  {
    CallbacksAdded(s, e);
    var t := Step(s, e);
    assert t.callbacks[|s.callbacks|..] == Added(s, e);
  }

  function Added(s: State, e: Event): seq<Callback> {
    if e.Settle? && e.isCurrent && e.chain.request.serial == s.serial && !GoesOn(e.chain, e.outcome)
    then Reports(e.chain, e.outcome)
    else []
  }

  lemma CallbacksAdded(s: State, e: Event)
    requires Possible(s, e)
    ensures Step(s, e).callbacks == s.callbacks + Added(s, e)
  {
  }

  ghost predicate Without(callbacks: seq<Callback>, r: Request) {
    forall c <- callbacks :: c.request != r
  }

  lemma OutdatedNotAdded(s: State, e: Event, r: Request)
    requires Possible(s, e) && r.serial < s.serial
    ensures s.serial <= Step(s, e).serial && Without(Added(s, e), r)
  {
  }

  lemma WithoutBoth(before: seq<Callback>, added: seq<Callback>, all: seq<Callback>, r: Request)
    requires before + added <= all && Without(added, r) && Without(all[|before + added|..], r)
    ensures before <= all && Without(all[|before|..], r)
  {
    assert all[|before|..] == added + all[|before + added|..];
  }

  /**
  An outdated serial stays outdated: an invalidated request gets no callback from then on,
  not even one it had before.
  */
  lemma {:induction false} NoCallbackAfterInvalidation(s: State, es: seq<Event>, t: State, r: Request)
    requires r.serial < s.serial && Runs(s, es, t)
    ensures r.serial < t.serial
    ensures s.callbacks <= t.callbacks && Without(t.callbacks[|s.callbacks|..], r)
    decreases |es|
  {
    if es != [] {
      var u := Step(s, es[0]);
      CallbacksAdded(s, es[0]);
      OutdatedNotAdded(s, es[0], r);
      NoCallbackAfterInvalidation(u, es[1..], t, r);
      WithoutBoth(s.callbacks, Added(s, es[0]), t.callbacks, r);
    }
  }

  /**
  If calls settle, the waiting request goes out: a settlement either moves the chain from its frame call
  to its status call, after which there is no further stage, or sends the waiting request.
  */
  lemma WaitingRequestGoesOut(s: State, e: Event)
    requires Inv(s) && s.pending.Some? && e.Settle? && Possible(s, e)
    ensures var t := Step(s, e);
            || (e.chain.stage.AwaitingFrame? && t.pending == s.pending
                && t.chains == multiset{Chain(e.chain.request, AwaitingStatus)})
            || (t.sent == s.sent + [s.pending.value] && t.pending == None
                && t.chains == multiset{Chain(s.pending.value, AwaitingFrame)})
  {
    ChainsOf(s, e.chain);
    assert s.chains - multiset{e.chain} == multiset{};
  }

  lemma {:induction false} SettlingKeepsSent(s: State, es: seq<Event>, t: State)
    requires Inv(s) && s.pending.None? && Runs(s, es, t) && (forall e <- es :: e.Settle?)
    ensures t.newest == s.newest && t.pending.None? && t.sent == s.sent
    decreases |es|
  {
    if es != [] {
      StepKeeps(s, es[0]);
      ChainsOf(s, es[0].chain);
      SettlingKeepsSent(Step(s, es[0]), es[1..], t);
    }
  }

  /**
  If calls settle, the newest request is issued: after two settlements, or when no chain is out any more, nothing
  waits and the newest request since the last invalidation is the last one sent.
  */
  lemma NewestIsIssued(s: State, es: seq<Event>, t: State)
    requires Inv(s) && Runs(s, es, t) && (forall e <- es :: e.Settle?)
    requires |es| >= 2 || t.chains == multiset{}
    ensures t.newest == s.newest && t.pending.None?
    ensures t.newest.Some? ==> IsLast(t.sent, t.newest.value)
  {
    RunKeeps(s, es, t);
    if s.pending.None? {
      SettlingKeepsSent(s, es, t);
    } else if es != [] {
      var u := Step(s, es[0]);
      StepKeeps(s, es[0]);
      WaitingRequestGoesOut(s, es[0]);
      SettlementKeepsNewest(s, es[0]);
      if u.pending.None? {
        SettlingKeepsSent(u, es[1..], t);
      } else if es[1..] != [] {
        SecondSends(s, es[0], es[1]);
        StepKeeps(u, es[1]);
        SettlementKeepsNewest(u, es[1]);
        SettlingKeepsSent(Step(u, es[1]), es[1..][1..], t);
      }
    }
  }

  lemma SettlementKeepsNewest(s: State, e: Event)
    requires e.Settle? && Possible(s, e)
    ensures Step(s, e).newest == s.newest
  {
  }

  /** A chain that went on to its status call ends with the next settlement, and the waiting request goes out. */
  lemma SecondSends(s: State, first: Event, second: Event)
    requires Inv(s) && s.pending.Some? && first.Settle? && second.Settle? && Possible(s, first)
    requires Step(s, first).pending.Some? && Possible(Step(s, first), second)
    ensures Step(Step(s, first), second).pending.None?
  {
    var u := Step(s, first);
    StepKeeps(s, first);
    WaitingRequestGoesOut(s, first);
    ChainsOf(u, second.chain);
    assert second.chain in multiset{Chain(first.chain.request, AwaitingStatus)};
    WaitingRequestGoesOut(u, second);
  }

  lemma SettleKeepsNewest(s: State, chain: Chain, outcome: Outcome, isCurrent: bool)
    ensures var t := SettleStep(s, chain, outcome, isCurrent); t.newest == s.newest && t.serial == s.serial
  {
  }

  lemma SentAlone(s: State, chain: Chain, outcome: Outcome, isCurrent: bool)
    requires Inv(s) && s.pending.Some? && Possible(s, Settle(chain, outcome, isCurrent))
    ensures var t := SettleStep(s, chain, outcome, isCurrent);
            t.pending.None? ==> t.chains == multiset{Chain(s.pending.value, AwaitingFrame)}
  {
    WaitingRequestGoesOut(s, Settle(chain, outcome, isCurrent));
  }

  lemma EndsSettled(s: State, chain: Chain, outcome: Outcome, isCurrent: bool)
    ensures var made := if chain.request.serial != s.serial || !isCurrent then [] else Reports(chain, outcome);
            (made == [] || !GoesOn(chain, outcome)) ==>
              SettleStep(s, chain, outcome, isCurrent) == Complete(Call(s.(chains := s.chains - multiset{chain}), made))
  {
    assert s.callbacks + [] == s.callbacks;
  }

  lemma ReportsAreOf(chain: Chain, outcome: Outcome)
    ensures forall c <- Reports(chain, outcome) :: c.request == chain.request
  {
  }

  // ---------- the coordinator as an object ----------

  class Coordinator {
    var serial: nat
    var inFlight: bool
    var pending: Option<Request>
    ghost var chains: multiset<Chain>
    ghost var callbacks: seq<Callback>
    ghost var sent: seq<Request>
    ghost var newest: Option<Request>

    ghost function Now(): State
      reads this
    {
      State(serial, inFlight, pending, chains, callbacks, sent, newest)
    }

    /** One chain at most; what waits is the newest request since the last invalidation and has a chain ahead of it. */
    ghost predicate Valid()
      reads this
    {
      Inv(Now())
    }

    constructor ()
      ensures Valid() && Now() == INITIAL
    {
      serial, inFlight, pending := 0, false, None;
      chains, callbacks, sent, newest := multiset{}, [], [], None;
    }

    /** Sends the waiting request if nothing is in flight; `out` is the request that went to the backend. */
    method PumpPending() returns (out: Option<Request>)
      modifies this
      ensures Now() == Pump(old(Now()))
      ensures out == if old(inFlight) then None else old(pending)
    {
      if inFlight || pending.None? {
        return None;
      }
      out := pending;
      pending, inFlight := None, true;
      chains := chains + multiset{Chain(out.value, AwaitingFrame)};
      sent := sent + [out.value];
    }

    /** The request goes out unless a chain is under way; then it waits, in place of any that waited before. */
    method AskFor(demand: Demand) returns (out: Option<Request>)
      requires Valid()
      modifies this
      ensures Valid() && Now() == Step(old(Now()), Ask(demand))
      ensures newest == Some(Request(demand, serial)) && inFlight && |chains| == 1
      ensures if old(inFlight) then out.None? && pending == newest && chains == old(chains) && sent == old(sent)
              else && out == newest && pending.None? && sent == old(sent) + [Request(demand, serial)]
                   && chains == multiset{Chain(Request(demand, serial), AwaitingFrame)}
      ensures callbacks == old(callbacks) && serial == old(serial)
    {
      StepKeeps(Now(), Ask(demand));
      pending := Some(Request(demand, serial));
      newest := pending;
      out := PumpPending();
    }

    /** Every request made so far is outdated, and nothing waits any more. */
    method InvalidateAll()
      requires Valid()
      modifies this
      ensures Valid() && Now() == Step(old(Now()), Invalidate)
      ensures pending.None? && newest.None? && forall r <- sent :: r.serial < serial
      ensures callbacks == old(callbacks) && chains == old(chains) && sent == old(sent) && inFlight == old(inFlight)
    {
      StepKeeps(Now(), Invalidate);
      serial, pending, newest := serial + 1, None, None;
    }

    method CompleteChain() returns (out: Option<Request>)
      modifies this
      ensures Now() == Complete(old(Now())) && callbacks == old(callbacks)
      ensures out == if old(pending).Some? && old(pending).value.serial == serial then old(pending) else None
    {
      inFlight := false;
      if pending.Some? && pending.value.serial != serial {
        pending := None;
      }
      out := PumpPending();
    }

    method Conclude(chain: Chain, ghost made: seq<Callback>) returns (out: Option<Request>)
      modifies this
      ensures Now() == Complete(Call(old(Now()).(chains := old(chains) - multiset{chain}), made))
      ensures out.Some? ==> out == old(pending) && pending.None?
      ensures out == if old(pending).Some? && old(pending).value.serial == serial then old(pending) else None
      ensures callbacks == old(callbacks) + made && serial == old(serial)
    {
      ghost var ended := Call(Now().(chains := chains - multiset{chain}), made);
      chains, callbacks := chains - multiset{chain}, callbacks + made;
      assert Now() == ended;
      out := CompleteChain();
    }

    method Proceed(chain: Chain, outcome: Outcome, isCurrent: bool)
      returns (made: seq<Callback>, out: Option<Request>)
      modifies this
      ensures Now() == SettleStep(old(Now()), chain, outcome, isCurrent) && callbacks == old(callbacks) + made
      ensures made != [] ==> isCurrent && chain.request.serial == serial && made == Reports(chain, outcome)
      ensures out.Some? ==> out == old(pending) && pending.None?
      ensures var heard := isCurrent && chain.request.serial == old(serial);
              if heard && GoesOn(chain, outcome)
              then out.None? && made == []
                   && chains == old(chains) - multiset{chain} + multiset{Chain(chain.request, AwaitingStatus)}
              else && (heard ==> made == Reports(chain, outcome))
                   && out == if old(pending).Some? && old(pending).value.serial == old(serial) then old(pending)
                         else None
    {
      EndsSettled(Now(), chain, outcome, isCurrent);
      made, out := [], None;
      if chain.request.serial != serial || !isCurrent {
        out := Conclude(chain, []);
      } else if GoesOn(chain, outcome) {
        chains := chains - multiset{chain} + multiset{Chain(chain.request, AwaitingStatus)};
      } else {
        made := Reports(chain, outcome);
        out := Conclude(chain, made);
      }
    }

    /**
    A call of the chain settles; `made` are the callbacks it makes, in order, and `out` the request that
    goes out next. When nothing is in flight any more, the newest request is the last one sent.
    */
    method SettleChain(chain: Chain, outcome: Outcome, isCurrent: bool)
      returns (made: seq<Callback>, out: Option<Request>)
      requires Valid() && Possible(Now(), Settle(chain, outcome, isCurrent))
      modifies this
      ensures Valid() && Now() == Step(old(Now()), Settle(chain, outcome, isCurrent))
      ensures callbacks == old(callbacks) + made
      ensures made != [] ==>
                isCurrent && chain.request.serial == serial && forall c <- made :: c.request == chain.request
      ensures isCurrent && chain.request.serial == serial ==>
                && MadeFor(chain, outcome, made)
                && (chain.stage.AwaitingFrame? && outcome.NoStream? ==>
                      out.None? && chains == multiset{Chain(chain.request, AwaitingStatus)})
      ensures !(isCurrent && chain.request.serial == serial && chain.stage.AwaitingFrame? && outcome.NoStream?) ==>
                out == old(pending)
      ensures !inFlight ==> newest.None? || IsLast(sent, newest.value)
      ensures out.Some? ==> out == old(pending) && out == newest && chains == multiset{Chain(out.value, AwaitingFrame)}
    {
      StepKeeps(Now(), Settle(chain, outcome, isCurrent));
      SettleKeepsNewest(Now(), chain, outcome, isCurrent);
      ChainsOf(Now(), chain);
      assert chains - multiset{chain} + multiset{Chain(chain.request, AwaitingStatus)}
          == multiset{Chain(chain.request, AwaitingStatus)};
      if pending.Some? {
        SentAlone(Now(), chain, outcome, isCurrent);
      }
      ReportsAreOf(chain, outcome);
      made, out := Proceed(chain, outcome, isCurrent);
    }
  }
}
