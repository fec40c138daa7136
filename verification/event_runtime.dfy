/**
The runtime of event listeners: a start subscribes to one event after the other, waiting for each, and a stop
calls every unlisten function obtained so far. Stops, restarts and late replies may come in any order.
*/
module EventRuntime {
  import opened Basics

  /** The unlisten function that a run obtained for the subscription at `index`. */
  datatype Listener = Listener(run: nat, index: nat)

  /** The runtime's variables, and what it did to the outside: unlisten calls and stop notifications. */
  datatype Core = Core(active: bool, runId: nat, unlisteners: set<Listener>, called: multiset<Listener>, onStops: nat)

  // ---------- what the runtime does ----------

  function Started(c: Core): Core {
    if c.active then c else c.(active := true, runId := c.runId + 1)
  }

  predicate IsStale(c: Core, run: nat) {
    !c.active || run != c.runId
  }

  /** A subscription came through: kept by the current run, undone at once for any other. */
  function Received(c: Core, listener: Listener): Core {
    if IsStale(c, listener.run) then c.(called := c.called + multiset{listener})
    else c.(unlisteners := c.unlisteners + {listener})
  }

  function Stopped(c: Core): Core {
    if !c.active then c
    else Core(false, c.runId + 1, {}, c.called + multiset(c.unlisteners), c.onStops + 1)
  }

  // ---------- runs ----------

  /**
  `progress` says how many subscriptions each run obtained, `waiting` which runs wait for
  another, `failed` which gave up.
  */
  datatype State = State(core: Core, progress: map<nat, nat>, waiting: set<nat>, failed: set<nat>)

  const INITIAL := State(Core(false, 0, {}, multiset{}, 0), map[], {}, {})

  datatype Event = Starts | Stops | Replies(run: nat) | Rejects(run: nat)

  /** Only a run that waits for a subscription is answered. */
  predicate Possible(s: State, e: Event) {
    e.Replies? || e.Rejects? ==> e.run in s.waiting && e.run in s.progress
  }

  /** `n` is the number of subscriptions. */
  function Step(s: State, n: nat, e: Event): State
    requires Possible(s, e)
  {
    match e
    case Starts =>
      var core := Started(s.core);
      if s.core.active then s
      else State(core, s.progress[core.runId := 0], if n > 0 then s.waiting + {core.runId} else s.waiting, s.failed)
    case Stops =>
      s.(core := Stopped(s.core))
    case Replies(run) =>
      var got := s.progress[run];
      State(Received(s.core, Listener(run, got)), s.progress[run := got + 1],
            if IsStale(s.core, run) || got + 1 >= n then s.waiting - {run} else s.waiting, s.failed)
    case Rejects(run) =>
      s.(waiting := s.waiting - {run}, failed := s.failed + {run})
  }

  /** A run got this listener. */
  predicate Obtained(s: State, l: Listener) {
    l.run in s.progress && l.index < s.progress[l.run]
  }

  /** Every listener obtained is held or was called, and called once. */
  ghost predicate CallsOk(s: State) {
    && (forall l <- s.core.unlisteners :: Obtained(s, l))
    && (forall l: Listener :: s.core.called[l] == if Obtained(s, l) && l !in s.core.unlisteners then 1 else 0)
  }

  /** What is held are the current run's listeners: all it has obtained. */
  ghost predicate HeldOk(s: State) {
    && (!s.core.active ==> s.core.unlisteners == {})
    && (s.core.active ==>
          && s.core.runId in s.progress
          && (forall l: Listener :: l in s.core.unlisteners <==> l.run == s.core.runId && Obtained(s, l)))
  }

  ghost predicate ProgressOk(s: State, n: nat) {
    && (forall run <- s.progress.Keys :: run <= s.core.runId && s.progress[run] <= n)
    && (forall run <- s.waiting :: run in s.progress && s.progress[run] < n)
    && (s.core.active ==>
          && s.core.runId in s.progress
          && (s.core.runId in s.waiting || s.core.runId in s.failed || s.progress[s.core.runId] == n))
    && (forall run <- s.failed :: run <= s.core.runId)
    && s.core.runId == 2 * s.core.onStops + if s.core.active then 1 else 0
  }

  ghost predicate Inv(s: State, n: nat) {
    CallsOk(s) && HeldOk(s) && ProgressOk(s, n)
  }

  lemma ReplyKeepsCalls(s: State, n: nat, run: nat)
    requires Inv(s, n) && Possible(s, Replies(run))
    ensures CallsOk(Step(s, n, Replies(run))) && HeldOk(Step(s, n, Replies(run)))
  {
    var t := Step(s, n, Replies(run));
    var l := Listener(run, s.progress[run]);
    assert !Obtained(s, l);
    assert forall m: Listener :: Obtained(t, m) <==> Obtained(s, m) || m == l;
  }

  lemma StartKeepsCalls(s: State, n: nat)
    requires Inv(s, n)
    ensures CallsOk(Step(s, n, Starts)) && HeldOk(Step(s, n, Starts))
  {
    var t := Step(s, n, Starts);
    if !s.core.active {
      assert t.core.runId !in s.progress;
      assert forall m: Listener :: Obtained(t, m) <==> Obtained(s, m);
    }
  }

  lemma StepKeeps(s: State, n: nat, e: Event)
    requires Inv(s, n) && Possible(s, e)
    ensures Inv(Step(s, n, e), n)
  {
    match e {
      case Starts => StartKeepsCalls(s, n);
      case Stops =>
        var t := Step(s, n, e);
        assert forall m: Listener :: Obtained(t, m) <==> Obtained(s, m);
      case Replies(run) => ReplyKeepsCalls(s, n, run);
      case Rejects(run) =>
        var t := Step(s, n, e);
        assert forall m: Listener :: Obtained(t, m) <==> Obtained(s, m);
    }
  }

  ghost predicate Runs(s: State, n: nat, es: seq<Event>, t: State)
    decreases |es|
  {
    if es == [] then s == t else Possible(s, es[0]) && Runs(Step(s, n, es[0]), n, es[1..], t)
  }

  lemma {:induction false} RunKeeps(s: State, n: nat, es: seq<Event>, t: State)
    requires Inv(s, n) && Runs(s, n, es, t)
    ensures Inv(t, n)
    decreases |es|
  {
    if es != [] {
      StepKeeps(s, n, es[0]);
      RunKeeps(Step(s, n, es[0]), n, es[1..], t);
    }
  }

  // ---------- over every run ----------

  /** Each unlisten function obtained is held or was called, never both, and never called twice. */
  lemma CalledOnceOrHeld(n: nat, es: seq<Event>, s: State, l: Listener)
    requires Runs(INITIAL, n, es, s)
    ensures s.core.called[l] <= 1
    ensures Obtained(s, l) <==> (l in s.core.unlisteners || s.core.called[l] == 1)
    ensures !(l in s.core.unlisteners && s.core.called[l] == 1)
  {
    RunKeeps(INITIAL, n, es, s);
  }

  /** While active, what is held is what the current run obtained so far: nothing of an earlier run. */
  lemma HoldsTheCurrentRun(n: nat, es: seq<Event>, s: State)
    requires Runs(INITIAL, n, es, s) && s.core.active
    ensures s.core.runId in s.progress
    ensures s.core.unlisteners == set k | 0 <= k < s.progress[s.core.runId] :: Listener(s.core.runId, k)
  {
    RunKeeps(INITIAL, n, es, s);
  }

  /** Once the current run waits for nothing it holds a listener for every subscription, unless one was refused. */
  lemma AllSubscribed(n: nat, es: seq<Event>, s: State)
    requires Runs(INITIAL, n, es, s) && s.core.active && s.core.runId !in s.waiting
    ensures s.core.runId in s.failed
            || s.core.unlisteners == set k | 0 <= k < n :: Listener(s.core.runId, k)
  {
    RunKeeps(INITIAL, n, es, s);
    HoldsTheCurrentRun(n, es, s);
  }

  /**
  After a stop every unlisten function obtained has been called, and a reply still to come
  is undone as it arrives.
  */
  lemma StopLeavesNothing(n: nat, es: seq<Event>, s: State, run: nat)
    requires Runs(INITIAL, n, es, s) && !s.core.active
    ensures s.core.unlisteners == {} && forall l: Listener :: Obtained(s, l) ==> s.core.called[l] == 1
    ensures Possible(s, Replies(run)) ==>
      var t := Step(s, n, Replies(run));
      && (forall l: Listener :: Obtained(t, l) ==> t.core.called[l] == 1)
      && t.core.unlisteners == {} && run !in t.waiting
  {
    RunKeeps(INITIAL, n, es, s);
    if Possible(s, Replies(run)) {
      StepKeeps(s, n, Replies(run));
    }
  }

  /** The run number counts starts and stops alike, and the stop notification goes out once for each stop. */
  lemma StopsAreNotified(n: nat, es: seq<Event>, s: State)
    requires Runs(INITIAL, n, es, s)
    ensures s.core.runId == 2 * s.core.onStops + if s.core.active then 1 else 0
  {
    RunKeeps(INITIAL, n, es, s);
  }

  lemma {:induction false} NeverWaitsAgain(s: State, n: nat, es: seq<Event>, t: State, run: nat)
    requires Inv(s, n) && Runs(s, n, es, t) && run <= s.core.runId && run !in s.waiting
    ensures run !in t.waiting
    decreases |es|
  {
    if es != [] {
      StepKeeps(s, n, es[0]);
      NeverWaitsAgain(Step(s, n, es[0]), n, es[1..], t, run);
    }
  }

  /**
  A run that was refused a subscription is over, and so is one that is no longer current once its reply
  came: whatever happens next, it asks for nothing more.
  */
  lemma OverForGood(n: nat, es: seq<Event>, s: State, run: nat, more: seq<Event>, t: State)
    requires Runs(INITIAL, n, es, s) && run in s.waiting && run in s.progress
    requires Runs(Step(s, n, Rejects(run)), n, more, t)
          || (!(s.core.active && s.core.runId == run) && Runs(Step(s, n, Replies(run)), n, more, t))
    ensures run !in t.waiting
  {
    RunKeeps(INITIAL, n, es, s);
    StepKeeps(s, n, Rejects(run));
    StepKeeps(s, n, Replies(run));
    if Runs(Step(s, n, Rejects(run)), n, more, t) {
      NeverWaitsAgain(Step(s, n, Rejects(run)), n, more, t, run);
    } else {
      NeverWaitsAgain(Step(s, n, Replies(run)), n, more, t, run);
    }
  }

  // ---------- one step at a time ----------

  /** A start begins a run that holds nothing and waits for its first subscription, unless there is one already. */
  lemma StartBegins(s: State, n: nat)
    requires Inv(s, n) && !s.core.active
    ensures var t := Step(s, n, Starts);
            && t.core.active && t.core.unlisteners == {} && t.progress == s.progress[t.core.runId := 0]
            && (t.core.runId in t.waiting || n == 0)
  {
  }

  /** The current run holds one function more; a late one has been called. */
  lemma ReplyIsHeld(s: State, n: nat, run: nat)
    requires Inv(s, n) && Possible(s, Replies(run))
    ensures var t := Step(s, n, Replies(run)); var got := s.progress[run];
            if IsStale(s.core, run)
            then t.core.unlisteners == s.core.unlisteners && t.core.called[Listener(run, got)] == 1
            else t.core.called == s.core.called
                 && t.core.unlisteners == (set k | 0 <= k <= got :: Listener(run, k))
  {
    StepKeeps(s, n, Replies(run));
    var t := Step(s, n, Replies(run));
    assert Obtained(t, Listener(run, s.progress[run]));
  }

  // ---------- the runtime as an object ----------

  class RuntimeEventRuntime {
    /** The number of subscriptions. */
    const n: nat
    var active: bool
    var runId: nat
    var unlisteners: set<Listener>
    var called: multiset<Listener>
    var onStops: nat
    /** History: what each run obtained, which runs wait for a reply, and which were refused one. */
    ghost var progress: map<nat, nat>
    ghost var waiting: set<nat>
    ghost var failed: set<nat>

    ghost function Held(): Core
      reads this
    {
      Core(active, runId, unlisteners, called, onStops)
    }

    ghost function Now(): State
      reads this
    {
      State(Held(), progress, waiting, failed)
    }

    /** Every unlisten function obtained is held or was called once, and what is held is the current run's. */
    ghost predicate Valid()
      reads this
    {
      Inv(Now(), n)
    }

    constructor (n: nat)
      ensures Valid() && Now() == INITIAL && this.n == n
    {
      this.n := n;
      active, runId, unlisteners, called, onStops := false, 0, {}, multiset{}, 0;
      progress, waiting, failed := map[], {}, {};
    }

    /** The part of a start before its first subscription; no run when there is one already. */
    method Start() returns (currentRunId: Option<nat>)
      requires Valid()
      modifies this
      ensures Valid() && Now() == Step(old(Now()), n, Starts)
      ensures active && currentRunId == if old(active) then None else Some(runId)
      ensures currentRunId.Some? ==>
                unlisteners == {} && progress == old(progress)[runId := 0] && (runId in waiting || n == 0)
    {
      StepKeeps(Now(), n, Starts);
      if active {
        return None;
      }
      StartBegins(Now(), n);
      Begin();
      currentRunId := Some(runId);
    }

    method Begin()
      requires !active
      modifies this`active, this`runId, this`progress, this`waiting
      ensures Now() == Step(old(Now()), n, Starts)
    {
      active := true;
      runId := runId + 1;
      progress := progress[runId := 0];
      if n > 0 {
        waiting := waiting + {runId};
      }
    }

    /**
    The part of a start after a subscription came through; `goesOn` says whether the run is
    still the current one.
    */
    method Obtain(currentRunId: nat, index: nat) returns (goesOn: bool)
      requires Valid() && Possible(Now(), Replies(currentRunId)) && index == progress[currentRunId]
      modifies this
      ensures Valid() && Now() == Step(old(Now()), n, Replies(currentRunId))
      ensures goesOn == (active && currentRunId == runId)
      ensures if goesOn then unlisteners == (set k | 0 <= k <= index :: Listener(runId, k)) && called == old(called)
              else unlisteners == old(unlisteners) && called[Listener(currentRunId, index)] == 1
    {
      StepKeeps(Now(), n, Replies(currentRunId));
      ReplyIsHeld(Now(), n, currentRunId);
      goesOn := Note(currentRunId, index);
    }

    method Note(currentRunId: nat, index: nat) returns (goesOn: bool)
      requires Possible(Now(), Replies(currentRunId)) && index == progress[currentRunId]
      modifies this`unlisteners, this`called, this`progress, this`waiting
      ensures Now() == Step(old(Now()), n, Replies(currentRunId))
      ensures goesOn == (active && currentRunId == runId)
    {
      goesOn := active && currentRunId == runId;
      Receive(Listener(currentRunId, index));
      progress := progress[currentRunId := index + 1];
      if !goesOn || index + 1 >= n {
        waiting := waiting - {currentRunId};
      }
    }

    method Receive(unlisten: Listener)
      modifies this`unlisteners, this`called
      ensures Held() == Received(old(Held()), unlisten)
    {
      if !active || unlisten.run != runId {
        called := called + multiset{unlisten};
      } else {
        unlisteners := unlisteners + {unlisten};
      }
    }

    /** Nothing is held any more, and whatever was ever obtained has been called, once. */
    method Stop()
      requires Valid()
      modifies this
      ensures Valid() && Now() == Step(old(Now()), n, Stops)
      ensures !active && unlisteners == {} && onStops == old(onStops) + if old(active) then 1 else 0
      ensures forall l: Listener :: called[l] == if Obtained(Now(), l) then 1 else 0
    {
      StepKeeps(Now(), n, Stops);
      CallAll();
    }

    method CallAll()
      modifies this`active, this`runId, this`unlisteners, this`called, this`onStops
      ensures Held() == Stopped(old(Held()))
    {
      if !active {
        return;
      }
      active := false;
      runId := runId + 1;
      var rest := unlisteners;
      while rest != {}
        invariant rest <= unlisteners
        invariant !active && runId == old(runId) + 1 && unlisteners == old(unlisteners) && onStops == old(onStops)
        invariant called + multiset(rest) == old(called) + multiset(unlisteners)
        decreases |rest|
      {
        var unlisten :| unlisten in rest;
        called := called + multiset{unlisten};
        assert multiset(rest) == multiset(rest - {unlisten}) + multiset{unlisten};
        rest := rest - {unlisten};
      }
      unlisteners := {};
      onStops := onStops + 1;
    }
  }
}
