/**
The pool that looks for playable versions: three workers share one list of tracks and one counter, and
each waits for the backend between claiming a track and noting its row. A pool may be superseded or
closed at any moment; its workers then come back to a dialog that is no longer theirs.
*/
module MatchPool {
  import opened Basics

  datatype Track = Track(source: string, remote: string, title: string, artist: string)
  datatype TrackKey = TrackKey(source: string, remote: string)

  function KeyOf(track: Track): TrackKey {
    TrackKey(track.source, track.remote)
  }

  datatype Row = Row(original: Track, options: seq<Track>, remembered: Option<TrackKey>, choice: Option<TrackKey>)
  datatype Phase = Searching | Review | Importing | Finished
  datatype Dialog = Dialog(phase: Phase, searched: nat, searchTotal: nat, rows: seq<Row>)

  /** A worker waits for candidates, waits for a remembered track, or has left its loop. */
  datatype Worker = Finding(index: nat) | Detailing(index: nat) | Stopped

  datatype Pool = Pool(token: nat, tracks: seq<Track>, next: nat, rows: map<nat, Row>,
                       workers: seq<Worker>, concluded: bool)

  datatype State = State(generation: nat, dialog: Option<Dialog>, pools: seq<Pool>)

  const INITIAL := State(0, None, [])
  const CONCURRENCY := 3

  datatype Reply = Candidates(remembered: Option<Track>, options: seq<Track>) | Tracks(found: seq<Track>) | Rejected

  datatype Event =
    | Find(tracks: seq<Track>, importRunning: bool)
    | Close
    | Choose(index: nat, choice: Option<TrackKey>)
    | ConfirmPatches(phase: Phase)
    | Settle(pool: nat, worker: nat, reply: Reply)
    | Conclude(pool: nat)

  predicate IsCurrent(s: State, p: nat)
    requires p < |s.pools|
  {
    s.pools[p].token == s.generation
  }

  function WithPool(s: State, p: nat, pool: Pool): State
    requires p < |s.pools|
  {
    s.(pools := s.pools[p := pool])
  }

  /** The head of a worker's loop: claim the next track or leave. */
  function LoopHead(s: State, p: nat, w: nat): State
    requires p < |s.pools| && w < |s.pools[p].workers|
  {
    var pool := s.pools[p];
    if pool.next < |pool.tracks| && IsCurrent(s, p)
    then WithPool(s, p, pool.(next := pool.next + 1, workers := pool.workers[w := Finding(pool.next)]))
    else WithPool(s, p, pool.(workers := pool.workers[w := Stopped]))
  }

  function NoRow(original: Track): Row {
    Row(original, [], None, None)
  }

  /** A row is in: count it if the dialog is still the pool's, and go back to the head of the loop. */
  function NoteRow(s: State, p: nat, w: nat, index: nat, row: Row): State
    requires p < |s.pools| && w < |s.pools[p].workers|
  {
    var noted := WithPool(s, p, s.pools[p].(rows := s.pools[p].rows[index := row]));
    var counted :=
      if IsCurrent(s, p) && s.dialog.Some?
      then noted.(dialog := Some(s.dialog.value.(searched := s.dialog.value.searched + 1)))
      else noted;
    LoopHead(counted, p, w)
  }

  /** The workers of a pool only ever stand at tracks of the pool. */
  predicate InRange(pool: Pool) {
    forall w | 0 <= w < |pool.workers| :: !pool.workers[w].Stopped? ==> pool.workers[w].index < |pool.tracks|
  }

  /** The remembered track has to be looked up before its row is known. */
  predicate NeedsDetails(worker: Worker, reply: Reply) {
    worker.Finding? && reply.Candidates? && reply.remembered.Some?
  }

  function RowFrom(original: Track, worker: Worker, reply: Reply): Row {
    if worker.Finding? && reply.Candidates? then
      Row(original, reply.options, None, if reply.options == [] then None else Some(KeyOf(reply.options[0])))
    else if worker.Detailing? && reply.Tracks? && reply.found != [] then
      Row(original, [reply.found[0]], Some(KeyOf(reply.found[0])), Some(KeyOf(reply.found[0])))
    else NoRow(original)
  }

  function SettleWorker(s: State, p: nat, w: nat, reply: Reply): State
    requires p < |s.pools| && w < |s.pools[p].workers| && InRange(s.pools[p]) && !s.pools[p].workers[w].Stopped?
  {
    var pool := s.pools[p];
    var worker := pool.workers[w];
    if NeedsDetails(worker, reply)
    then WithPool(s, p, pool.(workers := pool.workers[w := Detailing(worker.index)]))
    else NoteRow(s, p, w, worker.index, RowFrom(pool.tracks[worker.index], worker, reply))
  }

  function RowList(pool: Pool): seq<Row> {
    seq(|pool.tracks|, i => if i in pool.rows then pool.rows[i] else NoRow(Track("", "", "", "")))
  }

  function StartWorkers(s: State, p: nat, w: nat): State
    requires p < |s.pools| && w <= |s.pools[p].workers|
    decreases |s.pools[p].workers| - w
  {
    if w == |s.pools[p].workers| then s else StartWorkers(LoopHead(s, p, w), p, w + 1)
  }

  function FindStep(s: State, tracks: seq<Track>, importRunning: bool): State {
    if importRunning || tracks == [] then s
    else
      var pool := Pool(s.generation + 1, tracks, 0, map[], seq(CONCURRENCY, _ => Stopped), false);
      StartWorkers(State(s.generation + 1, Some(Dialog(Searching, 0, |tracks|, [])), s.pools + [pool]), |s.pools|, 0)
  }

  predicate Possible(s: State, e: Event) {
    match e
    case Settle(p, w, reply) =>
      && p < |s.pools| && w < |s.pools[p].workers| && !s.pools[p].workers[w].Stopped?
      && (reply.Candidates? ==> s.pools[p].workers[w].Finding?)
      && (reply.Tracks? ==> s.pools[p].workers[w].Detailing?)
      && InRange(s.pools[p])
    case Conclude(p) =>
      p < |s.pools| && !s.pools[p].concluded && (forall worker <- s.pools[p].workers :: worker.Stopped?)
    case _ => true
  }

  function Step(s: State, e: Event): State
    requires Possible(s, e)
  {
    match e
    case Find(tracks, importRunning) => FindStep(s, tracks, importRunning)
    case Close =>
      if s.dialog.Some? && s.dialog.value.phase == Importing then s
      else s.(generation := s.generation + 1, dialog := None)
    case Choose(index, choice) =>
      if s.dialog.Some? && index < |s.dialog.value.rows|
      then s.(dialog := Some(s.dialog.value.(
             rows := s.dialog.value.rows[index := s.dialog.value.rows[index].(choice := choice)])))
      else s
    case ConfirmPatches(phase) =>
      if s.dialog.Some? then s.(dialog := Some(s.dialog.value.(phase := phase))) else s
    case Settle(p, w, reply) => SettleWorker(s, p, w, reply)
    case Conclude(p) =>
      var done := WithPool(s, p, s.pools[p].(concluded := true));
      if IsCurrent(s, p) && s.dialog.Some?
      then done.(dialog := Some(s.dialog.value.(phase := Review, rows := RowList(s.pools[p]))))
      else done
  }

  // ---------- the invariant ----------

  /** The choice is to skip the track or one of the row's options. */
  predicate ChoiceListed(row: Row) {
    row.choice.Some? ==> exists option <- row.options :: KeyOf(option) == row.choice.value
  }

  predicate Busy(pool: Pool, w: nat, index: nat) {
    w < |pool.workers| && !pool.workers[w].Stopped? && pool.workers[w].index == index
  }

  /** Every claimed track has its row or exactly one worker on it; no track is claimed twice. */
  ghost predicate Claims(pool: Pool) {
    && pool.next <= |pool.tracks|
    && (forall i <- pool.rows :: i < pool.next)
    && (forall w: nat, i: nat :: Busy(pool, w, i) ==> i < pool.next && i !in pool.rows)
    && (forall v: nat, w: nat, i: nat :: Busy(pool, v, i) && Busy(pool, w, i) ==> v == w)
    && (forall i: nat :: i < pool.next && i !in pool.rows ==> exists w: nat :: Busy(pool, w, i))
    && (forall i <- pool.rows :: pool.rows[i].original == pool.tracks[i] && ChoiceListed(pool.rows[i]))
  }

  /** The dialog a pool still owns counts its rows, and no worker has left it early. */
  ghost predicate Owned(s: State, pool: Pool) {
    pool.token == s.generation && !pool.concluded ==>
      && s.dialog.Some? && s.dialog.value.searched == |pool.rows| && s.dialog.value.searchTotal == |pool.tracks|
      && (forall w | 0 <= w < |pool.workers| :: pool.workers[w].Stopped? ==> pool.next == |pool.tracks|)
  }

  ghost predicate Inv(s: State) {
    && (forall p | 0 <= p < |s.pools| ::
          && Claims(s.pools[p]) && Owned(s, s.pools[p])
          && |s.pools[p].workers| == CONCURRENCY && s.pools[p].token <= s.generation)
    && (forall p, q | 0 <= p < q < |s.pools| :: s.pools[p].token < s.pools[q].token)
  }

  // ---------- proofs ----------

  /** A pool in the middle of its start or of a worker's round: worker `w` is about to enter its loop. */
  ghost predicate AtHead(s: State, p: nat, w: nat) {
    && p < |s.pools| && w < |s.pools[p].workers|
    && Claims(s.pools[p].(workers := s.pools[p].workers[w := Stopped]))
    && (s.pools[p].token == s.generation && !s.pools[p].concluded ==>
          && s.dialog.Some? && s.dialog.value.searched == |s.pools[p].rows|
          && s.dialog.value.searchTotal == |s.pools[p].tracks|)
  }

  lemma ClaimOne(pool: Pool, w: nat)
    requires w < |pool.workers| && pool.next < |pool.tracks| && Claims(pool.(workers := pool.workers[w := Stopped]))
    ensures Claims(pool.(next := pool.next + 1, workers := pool.workers[w := Finding(pool.next)]))
  {
    var idle := pool.(workers := pool.workers[w := Stopped]);
    var busy := pool.(next := pool.next + 1, workers := pool.workers[w := Finding(pool.next)]);
    forall v: nat, i: nat ensures Busy(busy, v, i) <==> (if v == w then i == pool.next else Busy(idle, v, i)) {
    }
    forall i: nat | i < busy.next && i !in busy.rows ensures exists v: nat :: Busy(busy, v, i) {
      if i == pool.next {
        assert Busy(busy, w, i);
      } else {
        var v: nat :| Busy(idle, v, i);
        assert Busy(busy, v, i);
      }
    }
  }

  lemma HeadKeeps(s: State, p: nat, w: nat)
    requires AtHead(s, p, w)
    ensures var t := LoopHead(s, p, w);
            && Claims(t.pools[p]) && t.dialog == s.dialog && t.generation == s.generation
            && t.pools == s.pools[p := t.pools[p]]
            && t.pools[p].token == s.pools[p].token && t.pools[p].concluded == s.pools[p].concluded
            && t.pools[p].rows == s.pools[p].rows && t.pools[p].tracks == s.pools[p].tracks
            && |t.pools[p].workers| == |s.pools[p].workers|
            && (forall v | 0 <= v < |s.pools[p].workers| && v != w :: t.pools[p].workers[v] == s.pools[p].workers[v])
            && t.pools[p].next >= s.pools[p].next
            && (IsCurrent(s, p) && t.pools[p].workers[w].Stopped? ==> t.pools[p].next == |t.pools[p].tracks|)
  {
    if s.pools[p].next < |s.pools[p].tracks| && IsCurrent(s, p) {
      ClaimOne(s.pools[p], w);
    }
  }

  /** The row of a busy worker is in and the worker is free again. */
  lemma RowIn(pool: Pool, w: nat, index: nat, row: Row)
    requires Claims(pool) && Busy(pool, w, index) && row.original == pool.tracks[index] && ChoiceListed(row)
    ensures Claims(pool.(rows := pool.rows[index := row], workers := pool.workers[w := Stopped]))
    ensures index !in pool.rows && |pool.rows[index := row]| == |pool.rows| + 1
  {
    var t := pool.(rows := pool.rows[index := row], workers := pool.workers[w := Stopped]);
    forall v: nat, i: nat ensures Busy(t, v, i) <==> v != w && Busy(pool, v, i) {
    }
    forall i: nat | i < t.next && i !in t.rows ensures exists v: nat :: Busy(t, v, i) {
      var v: nat :| Busy(pool, v, i);
      assert Busy(t, v, i);
    }
  }

  lemma NoteRowKeeps(s: State, p: nat, w: nat, index: nat, row: Row)
    requires Inv(s) && p < |s.pools| && Busy(s.pools[p], w, index)
    requires row.original == s.pools[p].tracks[index] && ChoiceListed(row)
    requires !s.pools[p].concluded || !IsCurrent(s, p)
    ensures Inv(NoteRow(s, p, w, index, row))
  {
    var pool := s.pools[p];
    RowIn(pool, w, index, row);
    var noted := WithPool(s, p, pool.(rows := pool.rows[index := row]));
    var counted :=
      if IsCurrent(s, p) && s.dialog.Some?
      then noted.(dialog := Some(s.dialog.value.(searched := s.dialog.value.searched + 1)))
      else noted;
    HeadKeeps(counted, p, w);
    var t := LoopHead(counted, p, w);
    forall q | 0 <= q < |t.pools| ensures Claims(t.pools[q]) && Owned(t, t.pools[q]) {
      if q != p {
        assert t.pools[q] == s.pools[q] && s.pools[q].token != pool.token;
        assert Owned(s, s.pools[q]);
      } else {
        assert Owned(s, pool);
        NotedOwned(s, t, p, w);
      }
    }
  }

  /** The pool whose row came in still owns the dialog if it did, and no other worker left early. */
  lemma NotedOwned(s: State, t: State, p: nat, w: nat)
    requires p < |s.pools| && p < |t.pools| && w < |s.pools[p].workers| == |t.pools[p].workers|
    requires Owned(s, s.pools[p]) && t.generation == s.generation
    requires t.pools[p].token == s.pools[p].token && t.pools[p].concluded == s.pools[p].concluded
    requires t.pools[p].tracks == s.pools[p].tracks && t.pools[p].next >= s.pools[p].next
    requires t.pools[p].next <= |t.pools[p].tracks|
    requires forall v | 0 <= v < |s.pools[p].workers| && v != w :: t.pools[p].workers[v] == s.pools[p].workers[v]
    requires t.pools[p].token == t.generation && t.pools[p].workers[w].Stopped? ==>
               t.pools[p].next == |t.pools[p].tracks|
    requires t.pools[p].token == t.generation && !t.pools[p].concluded ==>
               t.dialog.Some? && t.dialog.value.searched == |t.pools[p].rows|
               && t.dialog.value.searchTotal == |t.pools[p].tracks|
    ensures Owned(t, t.pools[p])
  {
  }

  /** A concluded pool has no busy worker left, and stays so. */
  ghost predicate Quiet(s: State) {
    forall p | 0 <= p < |s.pools| :: s.pools[p].concluded ==> forall w: nat, i: nat :: !Busy(s.pools[p], w, i)
  }

  lemma SettleKeeps(s: State, p: nat, w: nat, reply: Reply)
    requires Inv(s) && Quiet(s) && Possible(s, Settle(p, w, reply))
    ensures Inv(SettleWorker(s, p, w, reply)) && Quiet(SettleWorker(s, p, w, reply))
  {
    var pool := s.pools[p];
    var index := pool.workers[w].index;
    assert Busy(pool, w, index);
    if NeedsDetails(pool.workers[w], reply) {
      var turned := pool.(workers := pool.workers[w := Detailing(index)]);
      TurnKeeps(pool, w, index);
      var t := SettleWorker(s, p, w, reply);
      forall q | 0 <= q < |t.pools| ensures Claims(t.pools[q]) && Owned(t, t.pools[q]) {
        if q == p {
          assert t.pools[q] == turned && Owned(s, pool);
        } else {
          assert t.pools[q] == s.pools[q];
        }
      }
      assert Quiet(t);
    } else {
      var row := RowFrom(pool.tracks[index], pool.workers[w], reply);
      RowFromListed(pool.tracks[index], pool.workers[w], reply);
      NoteRowKeeps(s, p, w, index, row);
      NoteRowQuiet(s, p, w, index, row);
    }
  }

  lemma RowFromListed(original: Track, worker: Worker, reply: Reply)
    ensures ChoiceListed(RowFrom(original, worker, reply)) && RowFrom(original, worker, reply).original == original
  {
    var row := RowFrom(original, worker, reply);
    if row.choice.Some? {
      assert row.options[0] in row.options;
    }
  }

  lemma TurnKeeps(pool: Pool, w: nat, index: nat)
    requires Claims(pool) && Busy(pool, w, index)
    ensures Claims(pool.(workers := pool.workers[w := Detailing(index)]))
  {
    var turned := pool.(workers := pool.workers[w := Detailing(index)]);
    forall v: nat, i: nat ensures Busy(turned, v, i) <==> Busy(pool, v, i) {
    }
    forall i: nat | i < turned.next && i !in turned.rows ensures exists v: nat :: Busy(turned, v, i) {
      var v: nat :| Busy(pool, v, i);
      assert Busy(turned, v, i);
    }
  }

  lemma NoteRowQuiet(s: State, p: nat, w: nat, index: nat, row: Row)
    requires Quiet(s) && p < |s.pools| && Busy(s.pools[p], w, index)
    ensures Quiet(NoteRow(s, p, w, index, row))
  {
    var t := NoteRow(s, p, w, index, row);
    assert !s.pools[p].concluded;
    assert t.pools == s.pools[p := t.pools[p]];
  }

  lemma StartKeeps(s: State, p: nat, w: nat)
    requires p < |s.pools| && w <= |s.pools[p].workers|
    requires Claims(s.pools[p]) && IsCurrent(s, p) && !s.pools[p].concluded && s.pools[p].rows == map[]
    requires s.dialog == Some(Dialog(Searching, 0, |s.pools[p].tracks|, []))
    requires forall v | w <= v < |s.pools[p].workers| :: s.pools[p].workers[v].Stopped?
    requires forall v | 0 <= v < w <= |s.pools[p].workers| :: s.pools[p].workers[v].Stopped? ==>
               s.pools[p].next == |s.pools[p].tracks|
    ensures var t := StartWorkers(s, p, w);
            && t.generation == s.generation && t.dialog == s.dialog
            && |t.pools| == |s.pools| && t.pools == s.pools[p := t.pools[p]]
            && Claims(t.pools[p]) && Owned(t, t.pools[p]) && !t.pools[p].concluded
            && t.pools[p].token == s.pools[p].token && t.pools[p].tracks == s.pools[p].tracks
            && |t.pools[p].workers| == |s.pools[p].workers|
    decreases |s.pools[p].workers| - w
  {
    if w < |s.pools[p].workers| {
      assert s.pools[p].workers[w := Stopped] == s.pools[p].workers;
      HeadKeeps(s, p, w);
      StartKeeps(LoopHead(s, p, w), p, w + 1);
    }
  }

  /** The state in which a new pool's workers start. */
  function Opened(s: State, tracks: seq<Track>): State {
    State(s.generation + 1, Some(Dialog(Searching, 0, |tracks|, [])),
          s.pools + [Pool(s.generation + 1, tracks, 0, map[], seq(CONCURRENCY, _ => Stopped), false)])
  }

  lemma OpenedStarts(s: State, tracks: seq<Track>)
    requires tracks != []
    ensures var t := FindStep(s, tracks, false); var p := |s.pools|;
            && t == StartWorkers(Opened(s, tracks), p, 0)
            && t.generation == s.generation + 1 && t.dialog == Some(Dialog(Searching, 0, |tracks|, []))
            && |t.pools| == p + 1 && (forall q | 0 <= q < p :: t.pools[q] == s.pools[q])
            && Claims(t.pools[p]) && Owned(t, t.pools[p]) && !t.pools[p].concluded
            && t.pools[p].token == t.generation && |t.pools[p].workers| == CONCURRENCY
            && t.pools[p].tracks == tracks
  {
    var pool := Opened(s, tracks).pools[|s.pools|];
    forall w: nat, i: nat ensures !Busy(pool, w, i) {
    }
    StartKeeps(Opened(s, tracks), |s.pools|, 0);
  }

  lemma FindKeeps(s: State, tracks: seq<Track>, importRunning: bool)
    requires Inv(s) && Quiet(s)
    ensures Inv(FindStep(s, tracks, importRunning)) && Quiet(FindStep(s, tracks, importRunning))
  {
    if !importRunning && tracks != [] {
      OpenedStarts(s, tracks);
      var t := FindStep(s, tracks, importRunning);
      forall q | 0 <= q < |t.pools| ensures Claims(t.pools[q]) && Owned(t, t.pools[q]) {
        assert q < |s.pools| ==> t.pools[q] == s.pools[q];
      }
    }
  }

  /** When every worker has left a pool that still owns the dialog, every track has its row. */
  lemma AllRowsIn(s: State, p: nat)
    requires Inv(s) && p < |s.pools| && IsCurrent(s, p) && !s.pools[p].concluded
    requires forall worker <- s.pools[p].workers :: worker.Stopped?
    ensures forall i: nat :: i < |s.pools[p].tracks| <==> i in s.pools[p].rows
    ensures |s.pools[p].rows| == |s.pools[p].tracks|
  {
    var pool := s.pools[p];
    assert pool.workers[0] in pool.workers;
    forall w: nat, i: nat ensures !Busy(pool, w, i) {
      assert w < |pool.workers| ==> pool.workers[w] in pool.workers;
    }
    BelowSize(|pool.tracks|);
    assert pool.rows.Keys == Below(|pool.tracks|);
    assert |pool.rows| == |pool.rows.Keys|;
  }

  function Below(n: nat): (b: set<nat>)
    ensures forall i: nat :: i in b <==> i < n
  {
    if n == 0 then {} else Below(n - 1) + {n - 1}
  }

  lemma {:induction false} BelowSize(n: nat)
    ensures |Below(n)| == n
  {
    if n > 0 {
      BelowSize(n - 1);
    }
  }

  lemma StepKeeps(s: State, e: Event)
    requires Inv(s) && Quiet(s) && Possible(s, e)
    ensures Inv(Step(s, e)) && Quiet(Step(s, e))
  {
    var t := Step(s, e);
    match e {
      case Find(tracks, importRunning) => FindKeeps(s, tracks, importRunning);
      case Settle(p, w, reply) => SettleKeeps(s, p, w, reply);
      case Conclude(p) =>
        forall w: nat, i: nat ensures !Busy(s.pools[p], w, i) {
          assert w < |s.pools[p].workers| ==> s.pools[p].workers[w] in s.pools[p].workers;
        }
        forall w: nat, i: nat ensures Busy(t.pools[p], w, i) <==> Busy(s.pools[p], w, i) {
        }
        assert Claims(t.pools[p]);
        forall q | 0 <= q < |t.pools| ensures Claims(t.pools[q]) && Owned(t, t.pools[q]) {
          assert q != p ==> t.pools[q] == s.pools[q];
        }
      case _ =>
        assert t.pools == s.pools;
    }
  }

  // ---------- the promises ----------

  ghost predicate Runs(s: State, es: seq<Event>, t: State)
    decreases |es|
  {
    if es == [] then s == t else Possible(s, es[0]) && Runs(Step(s, es[0]), es[1..], t)
  }

  lemma {:induction false} RunKeeps(s: State, es: seq<Event>, t: State)
    requires Inv(s) && Quiet(s) && Runs(s, es, t)
    ensures Inv(t) && Quiet(t) && s.generation <= t.generation && |s.pools| <= |t.pools|
    ensures forall p | 0 <= p < |s.pools| :: t.pools[p].token == s.pools[p].token
    decreases |es|
  {
    if es != [] {
      StepKeeps(s, es[0]);
      PoolsStay(s, es[0]);
      RunKeeps(Step(s, es[0]), es[1..], t);
    }
  }

  lemma FindStays(s: State, tracks: seq<Track>, importRunning: bool)
    ensures var t := FindStep(s, tracks, importRunning);
            && s.generation <= t.generation && |s.pools| <= |t.pools|
            && (forall p | 0 <= p < |s.pools| :: t.pools[p] == s.pools[p])
  {
    if !importRunning && tracks != [] {
      OpenedStarts(s, tracks);
    }
  }

  lemma PoolsStay(s: State, e: Event)
    requires Possible(s, e)
    ensures var t := Step(s, e);
            && s.generation <= t.generation && |s.pools| <= |t.pools|
            && (forall p | 0 <= p < |s.pools| :: t.pools[p].token == s.pools[p].token)
  {
    match e {
      case Find(tracks, importRunning) => FindStays(s, tracks, importRunning);
      case _ =>
    }
  }

  /** Over every run: no track of a pool is searched twice or skipped, by three workers at most. */
  lemma EveryTrackClaimedOnce(es: seq<Event>, t: State, p: nat)
    requires Runs(INITIAL, es, t) && p < |t.pools|
    ensures |t.pools[p].workers| == CONCURRENCY
    ensures forall i: nat :: i < t.pools[p].next <==> i in t.pools[p].rows || exists w: nat :: Busy(t.pools[p], w, i)
    ensures forall v: nat, w: nat, i: nat :: Busy(t.pools[p], v, i) && Busy(t.pools[p], w, i) ==>
              v == w && i !in t.pools[p].rows
  {
    RunKeeps(INITIAL, es, t);
    assert Claims(t.pools[p]);
  }

  /**
  A pool that still owns the dialog when its last worker is done hands over a review of every track in
  order, with the progress counter at its end.
  */
  lemma ConcludedPoolIsComplete(es: seq<Event>, t: State, p: nat)
    requires Runs(INITIAL, es, t) && Possible(t, Conclude(p)) && IsCurrent(t, p)
    ensures var after := Step(t, Conclude(p)); var tracks := t.pools[p].tracks;
            && after.dialog.Some?
            && after.dialog.value.phase == Review
            && after.dialog.value.searched == after.dialog.value.searchTotal == |tracks| == |after.dialog.value.rows|
            && (forall i | 0 <= i < |tracks| ::
                  after.dialog.value.rows[i].original == tracks[i] && ChoiceListed(after.dialog.value.rows[i]))
  {
    RunKeeps(INITIAL, es, t);
    AllRowsIn(t, p);
    assert Claims(t.pools[p]) && Owned(t, t.pools[p]);
  }

  /** A pool that was superseded or closed never touches the dialog again. */
  lemma SupersededPoolIsSilent(s: State, es: seq<Event>, t: State, p: nat, e: Event)
    requires Inv(s) && Quiet(s) && Runs(s, es, t) && p < |s.pools| && !IsCurrent(s, p)
    requires Possible(t, e) && ((e.Settle? && e.pool == p) || (e.Conclude? && e.pool == p))
    ensures Step(t, e).dialog == t.dialog && Step(t, e).generation == t.generation
    ensures e.Settle? && !Step(t, e).pools[p].workers[e.worker].Detailing? ==>
              Step(t, e).pools[p].workers[e.worker].Stopped?
  {
    RunKeeps(s, es, t);
    assert t.pools[p].token == s.pools[p].token < s.generation;
  }

  // ---------- one step at a time ----------

  /** A row for every track, in the tracks' order, its choice among its options. */
  ghost predicate Reviews(rows: seq<Row>, tracks: seq<Track>) {
    && |rows| == |tracks|
    && (forall i | 0 <= i < |tracks| :: rows[i].original == tracks[i] && ChoiceListed(rows[i]))
  }

  lemma RowsReview(pool: Pool)
    requires Claims(pool) && forall i: nat :: i < |pool.tracks| <==> i in pool.rows
    ensures Reviews(RowList(pool), pool.tracks)
  {
  }

  lemma FindOwns(s: State, tracks: seq<Track>, importRunning: bool)
    requires Inv(s) && !importRunning && tracks != []
    ensures var t := FindStep(s, tracks, importRunning); var p := |s.pools|;
            && |t.pools| == p + 1 && t.pools[p].token == t.generation && !t.pools[p].concluded
            && (forall q | 0 <= q < p :: t.pools[q] == s.pools[q] && t.pools[q].token < t.generation)
            && t.dialog == Some(Dialog(Searching, 0, |tracks|, [])) && t.pools[p].tracks == tracks
  {
    OpenedStarts(s, tracks);
  }

  lemma SettleOwns(s: State, p: nat, w: nat, reply: Reply)
    requires Inv(s) && Quiet(s) && Possible(s, Settle(p, w, reply))
    ensures var t := SettleWorker(s, p, w, reply);
            && |t.pools| == |s.pools| && t.pools[p].token == s.pools[p].token
            && !s.pools[p].concluded && !t.pools[p].concluded && t.generation == s.generation
            && |t.pools[p].workers| == |s.pools[p].workers|
            && (t.pools[p].workers[w].Finding? ==> t.pools[p].workers[w].index == s.pools[p].next && IsCurrent(s, p))
            && (!IsCurrent(s, p) ==> t.dialog == s.dialog)
  {
    assert Busy(s.pools[p], w, s.pools[p].workers[w].index);
  }

  /**
  What a search ends with. Candidates are all offered, and the first is chosen; a remembered track that is still there
  is the only offer, remembered and chosen; a failure, and a remembered track that is gone, leave nothing to choose.
  */
  predicate Found(row: Row, original: Track, reply: Reply) {
    && row.original == original
    && match reply
       case Candidates(_, options) =>
         && row.options == options && row.remembered.None?
         && row.choice == if options == [] then None else Some(TrackKey(options[0].source, options[0].remote))
       case Tracks(found) =>
         if found == [] then row.options == [] && row.remembered.None? && row.choice.None?
         else && row.options == [found[0]] && row.choice == row.remembered
              && row.choice == Some(TrackKey(found[0].source, found[0].remote))
       case Rejected => row.options == [] && row.remembered.None? && row.choice.None?
  }

  /** A track is remembered, and still has to be looked up. */
  predicate Remembers(reply: Reply) {
    reply.Candidates? && reply.remembered.Some?
  }

  /** The worker's next turn: the next track nobody has, or none if there is none or the dialog is not its pool's. */
  function NextTurn(s: State, p: nat): Worker
    requires p < |s.pools|
  {
    if s.pools[p].next < |s.pools[p].tracks| && s.pools[p].token == s.generation then Finding(s.pools[p].next)
    else Stopped
  }

  /** What a settled search leaves: its row and nobody else's, one more on the counter, and its worker's next turn. */
  ghost predicate TurnTaken(s: State, t: State, p: nat, w: nat, reply: Reply)
    requires Possible(s, Settle(p, w, reply))
  {
    var pool := s.pools[p]; var i := pool.workers[w].index;
    && |t.pools| == |s.pools| && (forall q | 0 <= q < |s.pools| && q != p :: t.pools[q] == s.pools[q])
    && t.generation == s.generation
    && if Remembers(reply)
       then t.pools[p] == pool.(workers := pool.workers[w := Detailing(i)]) && t.dialog == s.dialog
       else && i in t.pools[p].rows && Found(t.pools[p].rows[i], pool.tracks[i], reply)
            && t.pools[p] == pool.(rows := pool.rows[i := t.pools[p].rows[i]],
                                   workers := pool.workers[w := NextTurn(s, p)],
                                   next := if NextTurn(s, p).Finding? then pool.next + 1 else pool.next)
            && t.dialog == (if pool.token == s.generation && s.dialog.Some?
                            then Some(s.dialog.value.(searched := s.dialog.value.searched + 1)) else s.dialog)
  }

  lemma TurnIsTaken(s: State, p: nat, w: nat, reply: Reply)
    requires Possible(s, Settle(p, w, reply))
    ensures TurnTaken(s, SettleWorker(s, p, w, reply), p, w, reply)
  {
    var pool := s.pools[p];
    var worker := pool.workers[w];
    RowIsFound(pool.tracks[worker.index], worker, reply);
    if !Remembers(reply) {
      RowIsNoted(s, p, w, worker.index, RowFrom(pool.tracks[worker.index], worker, reply));
    }
  }

  lemma RowIsFound(original: Track, worker: Worker, reply: Reply)
    requires (reply.Candidates? ==> worker.Finding?) && (reply.Tracks? ==> worker.Detailing?)
    ensures !Remembers(reply) ==> Found(RowFrom(original, worker, reply), original, reply)
    ensures NeedsDetails(worker, reply) <==> Remembers(reply)
  {
  }

  lemma RowIsNoted(s: State, p: nat, w: nat, i: nat, row: Row)
    requires p < |s.pools| && w < |s.pools[p].workers|
    ensures var t := NoteRow(s, p, w, i, row); var pool := s.pools[p];
            && |t.pools| == |s.pools| && (forall q | 0 <= q < |s.pools| && q != p :: t.pools[q] == s.pools[q])
            && t.generation == s.generation
            && t.pools[p] == pool.(rows := pool.rows[i := row], workers := pool.workers[w := NextTurn(s, p)],
                                   next := if NextTurn(s, p).Finding? then pool.next + 1 else pool.next)
            && t.dialog == (if pool.token == s.generation && s.dialog.Some?
                            then Some(s.dialog.value.(searched := s.dialog.value.searched + 1)) else s.dialog)
  {
  }

  /** A row that is in stays as it is, and a pool's tracks stay too. */
  ghost predicate RowsStay(s: State, t: State) {
    && |s.pools| <= |t.pools|
    && (forall p | 0 <= p < |s.pools| ::
          && t.pools[p].tracks == s.pools[p].tracks
          && (forall i <- s.pools[p].rows :: i in t.pools[p].rows && t.pools[p].rows[i] == s.pools[p].rows[i]))
  }

  lemma StepKeepsRows(s: State, e: Event)
    requires Inv(s) && Possible(s, e)
    ensures RowsStay(s, Step(s, e))
  {
    match e {
      case Find(tracks, importRunning) => FindStays(s, tracks, importRunning);
      case Settle(p, w, reply) =>
        TurnIsTaken(s, p, w, reply);
        assert Claims(s.pools[p]) && Busy(s.pools[p], w, s.pools[p].workers[w].index);
      case _ =>
    }
  }

  lemma RowsStayThrough(s: State, t: State, u: State)
    requires RowsStay(s, t) && RowsStay(t, u)
    ensures RowsStay(s, u)
  {
    forall p | 0 <= p < |s.pools|
      ensures u.pools[p].tracks == s.pools[p].tracks
      ensures forall i <- s.pools[p].rows :: i in u.pools[p].rows && u.pools[p].rows[i] == s.pools[p].rows[i]
    {
      assert t.pools[p].tracks == s.pools[p].tracks;
    }
  }

  lemma {:induction false} RunKeepsRows(s: State, es: seq<Event>, t: State)
    requires Inv(s) && Quiet(s) && Runs(s, es, t)
    ensures RowsStay(s, t)
    decreases |es|
  {
    if es != [] {
      StepKeeps(s, es[0]);
      StepKeepsRows(s, es[0]);
      RunKeepsRows(Step(s, es[0]), es[1..], t);
      RowsStayThrough(s, Step(s, es[0]), t);
    }
  }

  /** Over every run: what the review offers for a track is what the search for that track ended with. */
  lemma ReviewShowsWhatWasFound(es: seq<Event>, s: State, p: nat, w: nat, reply: Reply, more: seq<Event>, t: State)
    requires Runs(INITIAL, es, s) && Possible(s, Settle(p, w, reply)) && !Remembers(reply)
    requires Runs(Step(s, Settle(p, w, reply)), more, t) && Possible(t, Conclude(p)) && IsCurrent(t, p)
    ensures var i := s.pools[p].workers[w].index; var review := Step(t, Conclude(p)).dialog;
            review.Some? && i < |review.value.rows| && Found(review.value.rows[i], s.pools[p].tracks[i], reply)
  {
    var e := Settle(p, w, reply);
    RunKeeps(INITIAL, es, s);
    StepKeeps(s, e);
    RunKeeps(Step(s, e), more, t);
    TurnIsTaken(s, p, w, reply);
    RunKeepsRows(Step(s, e), more, t);
    AllRowsIn(t, p);
    assert Owned(t, t.pools[p]);
  }

  // ---------- the same as an object ----------

  class MatchDialog {
    var generation: nat
    var dialog: Option<Dialog>
    var pools: seq<Pool>

    function Now(): State
      reads this
    {
      State(generation, dialog, pools)
    }

    /** Every pool's claims are in order, and the dialog counts the rows of the pool that owns it. */
    ghost predicate Valid()
      reads this
    {
      Inv(Now()) && Quiet(Now())
    }

    /** The pool the dialog belongs to, while it is searching. */
    ghost predicate Owns(p: nat)
      reads this
    {
      p < |pools| && pools[p].token == generation && !pools[p].concluded
    }

    constructor ()
      ensures Valid() && Now() == INITIAL
    {
      generation, dialog, pools := 0, None, [];
    }

    /** A new pool of three workers takes the dialog over; every older one has lost it. */
    method FindMatches(tracks: seq<Track>, importRunning: bool)
      requires Valid()
      modifies this
      ensures Valid() && Now() == Step(old(Now()), Find(tracks, importRunning))
      ensures if importRunning || tracks == [] then pools == old(pools) && dialog == old(dialog)
              else Owns(old(|pools|)) && forall p | 0 <= p < old(|pools|) :: !Owns(p) && pools[p] == old(pools)[p]
      ensures !importRunning && tracks != [] ==>
                dialog == Some(Dialog(Searching, 0, |tracks|, [])) && pools[|pools| - 1].tracks == tracks
    {
      StepKeeps(Now(), Find(tracks, importRunning));
      if importRunning || tracks == [] {
        return;
      }
      FindOwns(Now(), tracks, importRunning);
      Launch(tracks);
    }

    method Launch(tracks: seq<Track>)
      requires tracks != []
      modifies this
      ensures Now() == FindStep(old(Now()), tracks, false)
    {
      generation := generation + 1;
      dialog := Some(Dialog(Searching, 0, |tracks|, []));
      var p := |pools|;
      pools := pools + [Pool(generation, tracks, 0, map[], seq(CONCURRENCY, _ => Stopped), false)];
      ghost var begun := Now();
      var w := 0;
      while w < CONCURRENCY
        invariant 0 <= w <= CONCURRENCY && p < |pools| && |pools[p].workers| == CONCURRENCY
        invariant StartWorkers(Now(), p, w) == StartWorkers(begun, p, 0)
      {
        RunWorker(p, w);
        w := w + 1;
      }
    }

    /** One turn of a worker's loop head: claim the next track, or leave. */
    method RunWorker(p: nat, w: nat)
      requires p < |pools| && w < |pools[p].workers|
      modifies this`pools
      ensures Now() == LoopHead(old(Now()), p, w)
    {
      var pool := pools[p];
      if pool.next < |pool.tracks| && pool.token == generation {
        var index := pool.next;
        pools := pools[p := pool.(next := index + 1, workers := pool.workers[w := Finding(index)])];
      } else {
        pools := pools[p := pool.(workers := pool.workers[w := Stopped])];
      }
    }

    /**
    The backend answers a worker. In a pool that owns the dialog the counter is the number of rows that are
    in, and a worker that goes on has claimed a track nobody has; a superseded pool shows nothing and stops.
    */
    method SettleSearch(p: nat, w: nat, reply: Reply)
      requires Valid() && Possible(Now(), Settle(p, w, reply))
      modifies this
      ensures Valid() && Now() == Step(old(Now()), Settle(p, w, reply))
      ensures old(Owns(p)) ==> Owns(p) && dialog.Some? && dialog.value.searched == |pools[p].rows|
      ensures pools[p].workers[w].Finding? ==> pools[p].workers[w].index == old(pools[p].next) && old(Owns(p))
      ensures !old(Owns(p)) ==> dialog == old(dialog)
      ensures TurnTaken(old(Now()), Now(), p, w, reply)
    {
      SettleKeeps(Now(), p, w, reply);
      TurnIsTaken(Now(), p, w, reply);
      SettleOwns(Now(), p, w, reply);
      Turn(p, w, reply);
    }

    method Turn(p: nat, w: nat, reply: Reply)
      requires Possible(Now(), Settle(p, w, reply))
      modifies this
      ensures Now() == SettleWorker(old(Now()), p, w, reply)
    {
      var pool := pools[p];
      var worker := pool.workers[w];
      if NeedsDetails(worker, reply) {
        pools := pools[p := pool.(workers := pool.workers[w := Detailing(worker.index)])];
        return;
      }
      var row := RowFrom(pool.tracks[worker.index], worker, reply);
      pools := pools[p := pool.(rows := pool.rows[worker.index := row])];
      if pool.token == generation && dialog.Some? {
        dialog := Some(dialog.value.(searched := dialog.value.searched + 1));
      }
      RunWorker(p, w);
    }

    /** The last worker is done: the pool that owns the dialog hands over a row for every track, in order. */
    method ConcludePool(p: nat)
      requires Valid() && Possible(Now(), Conclude(p))
      modifies this
      ensures Valid() && Now() == Step(old(Now()), Conclude(p))
      ensures if old(Owns(p))
              then && dialog.Some? && dialog.value.phase == Review
                   && Reviews(dialog.value.rows, pools[p].tracks)
                   && (forall i | 0 <= i < |dialog.value.rows| ::
                         i in pools[p].rows && dialog.value.rows[i] == pools[p].rows[i])
              else dialog == old(dialog)
      ensures |pools| == |old(pools)| && pools[p] == old(pools)[p].(concluded := true)
    {
      StepKeeps(Now(), Conclude(p));
      if pools[p].token == generation {
        AllRowsIn(Now(), p);
        RowsReview(pools[p]);
      }
      var pool := pools[p];
      pools := pools[p := pool.(concluded := true)];
      if pool.token == generation && dialog.Some? {
        dialog := Some(dialog.value.(phase := Review, rows := RowList(pool)));
      }
    }

    /** Closing takes the dialog from every pool, unless an import is under way. */
    method CloseDialog()
      requires Valid()
      modifies this
      ensures Valid() && Now() == Step(old(Now()), Close) && pools == old(pools)
      ensures if old(dialog).Some? && old(dialog).value.phase == Importing then dialog == old(dialog)
              else dialog.None? && forall p: nat :: !Owns(p)
    {
      StepKeeps(Now(), Close);
      if dialog.Some? && dialog.value.phase == Importing {
        return;
      }
      generation, dialog := generation + 1, None;
    }

    /** One row's choice changes; what was found for it, every other row and the counter stay. */
    method SetChoice(index: nat, choice: Option<TrackKey>)
      requires Valid()
      modifies this`dialog
      ensures Valid() && Now() == Step(old(Now()), Choose(index, choice))
      ensures dialog.Some? == old(dialog).Some?
      ensures dialog.Some? ==>
                && dialog.value.searched == old(dialog).value.searched
                && |dialog.value.rows| == |old(dialog).value.rows|
                && (forall i | 0 <= i < |dialog.value.rows| ::
                      dialog.value.rows[i] == old(dialog).value.rows[i].(
                        choice := if i == index then choice else old(dialog).value.rows[i].choice))
    {
      StepKeeps(Now(), Choose(index, choice));
      if dialog.Some? && index < |dialog.value.rows| {
        var rows := dialog.value.rows;
        dialog := Some(dialog.value.(rows := rows[index := rows[index].(choice := choice)]));
      }
    }
  }
}
