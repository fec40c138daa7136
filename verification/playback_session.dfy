/**
The playback session: calls to the transports that come back in any order, and the one clock that their
replies, snapshots and position events publish.
*/
module PlaybackSession {
  import opened Basics
  import opened PositionClock

  // ---------- what is asked ----------

  datatype Action =
    | Play(song: string)
    | PlayNow(song: string)
    | OnEnded(song: string)
    | OnTrackTransitioned(from: string, to: string)
    | SkipForward
    | SkipBack
    | Resume
    | Pause
    | Seek
    | SetVolume
    | SetStemVolume
    | LoadStems
    | LoadState

  /** A call to a transport that has not come back: where its session method continues when it does. */
  datatype Call =
    | Preparing(song: string)
    | Starting(song: string)
    | LoadingStemsOf(song: string)
    | Transitioning(to: string)
    | Applying
    | Resuming
    | Pausing
    | Seeking
    | SettingVolume

  predicate IsVideoSource(song: string) {
    "yt:" <= song
  }

  /** The song of the clock's snapshot, unless there is none or its name is empty. */
  function Current(clock: Clock): Option<string> {
    if clock.snapshot.Some? && clock.snapshot.value.songId.Some? && clock.snapshot.value.songId.value != ""
    then clock.snapshot.value.songId else None
  }

  predicate IsSong(clock: Clock, song: string) {
    clock.snapshot.Some? && clock.snapshot.value.songId == Some(song)
  }

  predicate IsVideoActive(clock: Clock, videoActive: bool) {
    videoActive || (Current(clock).Some? && IsVideoSource(Current(clock).value))
  }

  /** A video first stops what plays locally, and a local song first tears an active video down. */
  function PlaySong(song: string, videoActive: bool): Call {
    if IsVideoSource(song) || videoActive then Preparing(song) else Starting(song)
  }

  /** The first transport call of a session method, if it makes one; `queued` is what the queue or history gives. */
  function Begin(clock: Clock, action: Action, videoActive: bool, queued: Option<string>): Option<Call> {
    match action
    case Play(song) =>
      if Current(clock).Some? && Current(clock).value != song then None else Some(PlaySong(song, videoActive))
    case PlayNow(song) => Some(PlaySong(song, videoActive))
    case OnEnded(song) =>
      if !IsSong(clock, song) || queued.None? || queued.value == "" then None
      else Some(PlaySong(queued.value, videoActive))
    case OnTrackTransitioned(from, to) =>
      if !IsSong(clock, from) && !IsSong(clock, to) then None else Some(Transitioning(to))
    case SkipForward =>
      if queued.None? || queued.value == "" then None else Some(PlaySong(queued.value, videoActive))
    case SkipBack =>
      if Current(clock).None? then None
      else if queued.Some? && queued.value != "" then Some(PlaySong(queued.value, videoActive))
      else Some(Applying)
    case Resume => Some(Resuming)
    case Pause => Some(Pausing)
    case Seek => if Current(clock).None? then None else Some(Seeking)
    case SetVolume => Some(SettingVolume)
    case SetStemVolume => if IsVideoActive(clock, videoActive) then None else Some(SettingVolume)
    case LoadStems => if IsVideoActive(clock, videoActive) then None else Some(Applying)
    case LoadState => Some(Applying)
  }

  /** No song: an empty name is none. */
  predicate IsNone(song: Option<string>) {
    song.None? || song.value == ""
  }

  /** A song is started by its own transport: a video at once, and any song while a video plays, needs preparing. */
  predicate StartsSong(call: Call, song: string, videoActive: bool) {
    if "yt:" <= song || videoActive then call == Preparing(song) else call == Starting(song)
  }

  /** Which action makes which call first, call by call. */
  lemma BeginsExactlyWhen(clock: Clock, action: Action, videoActive: bool, queued: Option<string>, call: Call)
    requires Begin(clock, action, videoActive, queued) == Some(call)
    ensures call.Resuming? <==> action.Resume?
    ensures call.Pausing? <==> action.Pause?
    ensures call.Seeking? <==> action.Seek?
    ensures call.SettingVolume? <==> action.SetVolume? || action.SetStemVolume?
    ensures call.Applying? <==> action.LoadStems? || action.LoadState? || (action.SkipBack? && IsNone(queued))
    ensures call.Transitioning? <==> action.OnTrackTransitioned?
    ensures call.Transitioning? ==> call.to == action.to
    ensures action.Play? || action.PlayNow? ==> StartsSong(call, action.song, videoActive)
    ensures action.OnEnded? || action.SkipForward? || (action.SkipBack? && !IsNone(queued)) ==>
              queued.Some? && StartsSong(call, queued.value, videoActive)
    ensures !call.LoadingStemsOf?
  {
  }

  /** The clock's snapshot names a song. */
  predicate HasSong(clock: Clock) {
    clock.snapshot.Some? && !IsNone(clock.snapshot.value.songId)
  }

  predicate IsOfVideo(clock: Clock, videoActive: bool) {
    videoActive || (HasSong(clock) && "yt:" <= clock.snapshot.value.songId.value)
  }

  /** Which actions make no call at all. */
  lemma BeginsNothingExactlyWhen(clock: Clock, action: Action, videoActive: bool, queued: Option<string>)
    ensures Begin(clock, action, videoActive, queued).None?
       <==> match action
            case Play(song) => HasSong(clock) && clock.snapshot.value.songId != Some(song)
            case OnEnded(song) =>
              clock.snapshot.None? || clock.snapshot.value.songId != Some(song) || IsNone(queued)
            case OnTrackTransitioned(from, to) =>
              || clock.snapshot.None?
              || (clock.snapshot.value.songId != Some(from) && clock.snapshot.value.songId != Some(to))
            case SkipForward => IsNone(queued)
            case SkipBack => !HasSong(clock)
            case Seek => !HasSong(clock)
            case SetStemVolume => IsOfVideo(clock, videoActive)
            case LoadStems => IsOfVideo(clock, videoActive)
            case _ => false
  {
  }

  // ---------- what a reply does ----------

  /** The snapshot that a reply amounts to: a resume plays and a pause does not, whatever it says. */
  function Meant(call: Call, reply: Snapshot): Snapshot {
    match call
    case Resuming => reply.(isPlaying := true)
    case Pausing => reply.(isPlaying := false)
    case _ => reply
  }

  predicate IsSameTransport(clock: Clock, snapshot: Snapshot) {
    && clock.snapshot.Some? && clock.snapshot.value.songId == snapshot.songId
    && clock.snapshot.value.transportGeneration == snapshot.transportGeneration
  }

  /** The clock that a reply publishes, if it publishes one. */
  function Publishes(clock: Clock, call: Call, reply: Snapshot, now: real): Option<Clock> {
    match call
    case Preparing(_) => None
    case LoadingStemsOf(song) =>
      if !IsSong(clock, song) then None else ReduceAuthoritativeSnapshot(clock, reply, now)
    case Seeking =>
      if IsSameTransport(clock, reply) then None else ReduceAuthoritativeSnapshot(clock, reply, now)
    case SettingVolume =>
      if IsStale(clock.snapshot, reply) then None else Some(clock.(snapshot := Some(reply)))
    case _ => ReduceAuthoritativeSnapshot(clock, Meant(call, reply), now)
  }

  /** Stems that were separated earlier are loaded once the song is. */
  predicate ShouldLoadStems(snapshot: Snapshot, separated: bool) {
    snapshot.state != Loading && separated && !snapshot.hasStems
  }

  /** The call that a method makes next, if it goes on. */
  function Continues(call: Call, reply: Snapshot, separated: bool): Option<Call> {
    match call
    case Preparing(song) => Some(Starting(song))
    case Starting(song) =>
      if !IsVideoSource(song) && ShouldLoadStems(reply, separated) then Some(LoadingStemsOf(song)) else None
    case Transitioning(to) => if ShouldLoadStems(reply, separated) then Some(LoadingStemsOf(to)) else None
    case _ => None
  }

  /** A method goes on after a song's video is out of the way, and for stems that the song is not playing with yet. */
  lemma ContinuesExactlyWhen(call: Call, reply: Snapshot, separated: bool, next: Call)
    ensures Continues(call, reply, separated) == Some(next)
       <==> || (call.Preparing? && next == Starting(call.song))
            || (separated && reply.state != Loading && !reply.hasStems
                && (|| (call.Starting? && !("yt:" <= call.song) && next == LoadingStemsOf(call.song))
                    || (call.Transitioning? && next == LoadingStemsOf(call.to))))
  {
  }

  // ---------- the session ----------

  /** Each published clock is at least as new as the ones before it. */
  ghost predicate Advances(clocks: seq<Clock>) {
    forall i, j | 0 <= i < j < |clocks| :: NotOlder(clocks[i], clocks[j])
  }

  /** What was published never went back, and the clock is no older than any of it. */
  ghost predicate InStep(published: seq<Clock>, clock: Clock) {
    Advances(published) && forall before <- published :: NotOlder(before, clock)
  }

  lemma PublishKeeps(published: seq<Clock>, clock: Clock, next: Clock)
    requires InStep(published, clock) && NotOlder(clock, next)
    ensures InStep(published + [next], next)
  {
    forall before <- published ensures NotOlder(before, next) {
      assert NotOlder(before, clock);
    }
  }

  /** The clock's transport plays and is not buffering. */
  predicate Plays(clock: Clock) {
    clock.snapshot.Some? && ShouldAnchor(clock.snapshot.value)
  }

  class Session {
    var clock: Clock
    var published: seq<Clock>

    /** What was published never went back; `ReplaceClock` alone can end this. */
    ghost predicate Valid()
      reads this
    {
      InStep(published, clock)
    }

    constructor ()
      ensures Valid() && clock == INITIAL && published == []
    {
      clock, published := INITIAL, [];
    }

    method Publish(next: Clock)
      requires NotOlder(clock, next)
      modifies this
      ensures old(Valid()) ==> Valid()
      ensures clock == next && published == old(published) + [next]
    {
      if Valid() {
        PublishKeeps(published, clock, next);
      }
      clock := next;
      published := published + [next];
    }

    /** The clock is the one given, and it was published; or there is none and nothing has happened. */
    ghost predicate HasPublished(was: Clock, before: seq<Clock>, next: Option<Clock>)
      reads this
    {
      if next.None? then clock == was && published == before
      else clock == next.value && published == before + [next.value]
    }

    /** One clock with this snapshot was published, unless a newer transport was known: then nothing has happened. */
    ghost predicate Applied(was: Clock, before: seq<Clock>, next: Snapshot)
      reads this
    {
      if was.snapshot.Some? && next.transportGeneration < was.snapshot.value.transportGeneration
      then clock == was && published == before
      else clock.snapshot == Some(next) && published == before + [clock]
    }

    /** The clock is at this song, under this transport. */
    static ghost predicate IsAt(at: Clock, song: Option<string>, generation: nat) {
      exists shown :: at.snapshot == Some(shown) && shown.songId == song && shown.transportGeneration == generation
    }

    /**
    Applied unless a newer transport is known; then the clock is anchored right and, if it
    stops, has not gone back.
    */
    method TryApplyAuthoritative(next: Snapshot, now: real) returns (applied: bool)
      modifies this
      ensures old(Valid()) ==> Valid()
      ensures HasPublished(old(clock), old(published), ReduceAuthoritativeSnapshot(old(clock), next, now))
      ensures applied == !IsStale(old(clock).snapshot, next)
      ensures applied ==> clock.snapshot == Some(next) && IsAnchoredRight(clock) && StopsForward(old(clock), clock, now)
      ensures Applied(old(clock), old(published), next) && (applied ==> GoesOnFrom(old(clock), next, clock, now))
    {
      var reduced := ReduceAuthoritativeSnapshot(clock, next, now);
      if reduced.None? {
        return false;
      }
      Publish(reduced.value);
      applied := true;
    }

    /** What an event publishes is no older than the clock, anchored right, and never a step back in stopping. */
    method ApplyPosition(event: PositionEvent, now: real)
      modifies this
      ensures old(Valid()) ==> Valid()
      ensures HasPublished(old(clock), old(published), ReducePositionEvent(old(clock), event, now))
      ensures published != old(published) ==> IsAnchoredRight(clock) && StopsForward(old(clock), clock, now)
    {
      var reduced := ReducePositionEvent(clock, event, now);
      if reduced.Some? {
        EventReduced(clock, event, now);
        Publish(reduced.value);
      }
    }

    /**
    The one way round the order of the clocks: it is kept exactly when the new clock is no
    older than those published.
    */
    method ReplaceClock(next: Clock)
      modifies this`clock
      ensures clock == next
      ensures old(Valid()) ==> (Valid() <==> forall before <- published :: NotOlder(before, next))
    {
      clock := next;
    }

    method ResumeReplied(snapshot: Snapshot, now: real)
      modifies this
      ensures old(Valid()) ==> Valid()
      ensures HasPublished(old(clock), old(published), Publishes(old(clock), Resuming, snapshot, now))
      ensures !IsStale(old(clock).snapshot, snapshot) ==> (IsRunning(clock) <==> snapshot.state != Buffering)
      ensures Applied(old(clock), old(published), snapshot.(isPlaying := true))
      ensures published != old(published) ==> GoesOnFrom(old(clock), snapshot.(isPlaying := true), clock, now)
    {
      var applied := TryApplyAuthoritative(snapshot.(isPlaying := true), now);
    }

    method PauseReplied(snapshot: Snapshot, now: real)
      modifies this
      ensures old(Valid()) ==> Valid()
      ensures HasPublished(old(clock), old(published), Publishes(old(clock), Pausing, snapshot, now))
      ensures !IsStale(old(clock).snapshot, snapshot) ==> !IsRunning(clock) && StopsForward(old(clock), clock, now)
      ensures Applied(old(clock), old(published), snapshot.(isPlaying := false))
      ensures published != old(published) ==> GoesOnFrom(old(clock), snapshot.(isPlaying := false), clock, now)
    {
      var applied := TryApplyAuthoritative(snapshot.(isPlaying := false), now);
    }

    method SeekReplied(snapshot: Snapshot, now: real) returns (sought: bool)
      modifies this
      ensures old(Valid()) ==> Valid()
      ensures HasPublished(old(clock), old(published), Publishes(old(clock), Seeking, snapshot, now))
      ensures sought == !IsStale(old(clock).snapshot, snapshot)
      ensures sought ==> IsAt(clock, snapshot.songId, snapshot.transportGeneration)
      ensures if IsAt(old(clock), snapshot.songId, snapshot.transportGeneration)
              then clock == old(clock) && published == old(published)
              else Applied(old(clock), old(published), snapshot)
      ensures published != old(published) ==> GoesOnFrom(old(clock), snapshot, clock, now)
    {
      if IsSameTransport(clock, snapshot) {
        return true;
      }
      sought := TryApplyAuthoritative(snapshot, now);
    }

    /** The position and its anchor stay; a clock anchored right stays so exactly when the reply plays as it does. */
    method VolumeReplied(snapshot: Snapshot, now: real)
      modifies this
      ensures old(Valid()) ==> Valid()
      ensures HasPublished(old(clock), old(published), Publishes(old(clock), SettingVolume, snapshot, now))
      ensures clock.positionMs == old(clock).positionMs && clock.playingSinceMs == old(clock).playingSinceMs
      ensures published != old(published) && IsAnchoredRight(old(clock)) ==>
                (IsAnchoredRight(clock) <==> (Plays(old(clock)) <==> ShouldAnchor(snapshot)))
      ensures Applied(old(clock), old(published), snapshot)
    {
      if IsStale(clock.snapshot, snapshot) {
        return;
      }
      Publish(clock.(snapshot := Some(snapshot)));
    }

    method StemsReplied(song: string, snapshot: Snapshot, now: real)
      modifies this
      ensures old(Valid()) ==> Valid()
      ensures HasPublished(old(clock), old(published), Publishes(old(clock), LoadingStemsOf(song), snapshot, now))
      ensures if old(clock).snapshot.None? || old(clock).snapshot.value.songId != Some(song)
              then clock == old(clock) && published == old(published)
              else Applied(old(clock), old(published), snapshot)
      ensures published != old(published) ==> GoesOnFrom(old(clock), snapshot, clock, now)
    {
      if clock.snapshot.None? || clock.snapshot.value.songId != Some(song) {
        return;
      }
      var applied := TryApplyAuthoritative(snapshot, now);
    }

    /** The reply to a play: the clock, and the stems' call if the method goes on. */
    method StartReplied(song: string, snapshot: Snapshot, separated: bool, now: real) returns (next: Option<Call>)
      modifies this
      ensures old(Valid()) ==> Valid()
      ensures HasPublished(old(clock), old(published), Publishes(old(clock), Starting(song), snapshot, now))
      ensures next == Continues(Starting(song), snapshot, separated)
      ensures next.Some? <==> !IsVideoSource(song) && separated && snapshot.state != Loading && !snapshot.hasStems
      ensures next.Some? ==> next.value == LoadingStemsOf(song)
      ensures Applied(old(clock), old(published), snapshot)
      ensures published != old(published) ==> GoesOnFrom(old(clock), snapshot, clock, now)
    {
      var applied := TryApplyAuthoritative(snapshot, now);
      if IsVideoSource(song) || !ShouldLoadStems(snapshot, separated) {
        return None;
      }
      next := Some(LoadingStemsOf(song));
    }
  }

  /** What an event publishes is what its snapshot would, up to a position the clock does not read. */
  lemma EventReduced(clock: Clock, event: PositionEvent, now: real)
    requires ReducePositionEvent(clock, event, now).Some?
    ensures var next := ReducePositionEvent(clock, event, now).value;
            NotOlder(clock, next) && IsAnchoredRight(next) && StopsForward(clock, next, now)
  {
    var full := ReduceAuthoritativeSnapshot(clock, event.snapshot, now).value;
    var next := ReducePositionEvent(clock, event, now).value;
    assert NotOlder(clock, full) && IsAnchoredRight(full) && StopsForward(clock, full, now);
    assert forall moment :: CurrentPosition(next, moment) == CurrentPosition(full, moment);
  }

  // ---------- runs ----------

  /** The clock, the calls that are out, every clock published, and the time. */
  datatype State = State(clock: Clock, calls: multiset<Call>, published: seq<Clock>, now: real)

  datatype Event =
    | Asks(action: Action, videoActive: bool, queued: Option<string>, at: real)
    | Replies(call: Call, reply: Snapshot, separated: bool, at: real)
    | Rejects(call: Call, at: real)
    | AppliesSnapshot(snapshot: Snapshot, at: real)
    | AppliesPosition(event: PositionEvent, at: real)
    | Replaces(clock: Clock, at: real)

  function Start(now: real): State {
    State(INITIAL, multiset{}, [], now)
  }

  predicate Possible(s: State, e: Event) {
    && s.now <= e.at
    && (e.Replies? || e.Rejects? ==> e.call in s.calls)
  }

  /** The clock that an event publishes, if it publishes one. */
  function Published(s: State, e: Event): Option<Clock> {
    match e
    case Replies(call, reply, _, at) => Publishes(s.clock, call, reply, at)
    case AppliesSnapshot(snapshot, at) => ReduceAuthoritativeSnapshot(s.clock, snapshot, at)
    case AppliesPosition(event, at) => ReducePositionEvent(s.clock, event, at)
    case _ => None
  }

  function CallsAfter(s: State, e: Event): multiset<Call> {
    match e
    case Asks(action, videoActive, queued, _) =>
      var call := Begin(s.clock, action, videoActive, queued);
      if call.Some? then s.calls + multiset{call.value} else s.calls
    case Replies(call, reply, separated, _) =>
      var next := Continues(call, reply, separated);
      s.calls - multiset{call} + if next.Some? then multiset{next.value} else multiset{}
    case Rejects(call, _) => s.calls - multiset{call}
    case _ => s.calls
  }

  function Step(s: State, e: Event): State {
    var next := Published(s, e);
    State(
      if e.Replaces? then e.clock else if next.Some? then next.value else s.clock,
      CallsAfter(s, e),
      if next.Some? then s.published + [next.value] else s.published,
      e.at)
  }

  ghost predicate Runs(s: State, es: seq<Event>, t: State)
    decreases |es|
  {
    if es == [] then s == t else Possible(s, es[0]) && Runs(Step(s, es[0]), es[1..], t)
  }

  predicate LeavesClockAlone(es: seq<Event>) {
    forall e <- es :: !e.Replaces?
  }

  // ---------- generations ----------

  ghost predicate UpToDate(s: State) {
    InStep(s.published, s.clock)
  }

  lemma StepAdvances(s: State, e: Event)
    requires !e.Replaces?
    ensures NotOlder(s.clock, Step(s, e).clock)
    ensures UpToDate(s) ==> UpToDate(Step(s, e))
  {
    if Published(s, e).Some? {
      PublishedIsNotOlder(s, e);
      if UpToDate(s) {
        PublishKeeps(s.published, s.clock, Published(s, e).value);
      }
    }
  }

  lemma PublishedIsNotOlder(s: State, e: Event)
    requires Published(s, e).Some?
    ensures NotOlder(s.clock, Published(s, e).value)
  {
    if e.AppliesPosition? {
      EventReduced(s.clock, e.event, e.at);
    }
  }

  lemma {:induction false} RunAdvances(s: State, es: seq<Event>, t: State)
    requires Runs(s, es, t) && LeavesClockAlone(es)
    ensures NotOlder(s.clock, t.clock)
    ensures UpToDate(s) ==> UpToDate(t)
    decreases |es|
  {
    if es != [] {
      StepAdvances(s, es[0]);
      assert forall e <- es[1..] :: e in es;
      RunAdvances(Step(s, es[0]), es[1..], t);
    }
  }

  /** However replies and events interleave, the published transport generation never decreases. */
  lemma GenerationNeverDecreases(now: real, es: seq<Event>, t: State, i: nat, j: nat)
    requires Runs(Start(now), es, t) && LeavesClockAlone(es) && i < j < |t.published|
    ensures NotOlder(t.published[i], t.published[j]) && NotOlder(t.published[j], t.clock)
  {
    RunAdvances(Start(now), es, t);
  }

  // ---------- the anchor ----------

  predicate IsVolumeReply(s: State, e: Event) {
    e.Replies? && e.call == SettingVolume && !IsStale(s.clock.snapshot, e.reply)
  }

  /** The reply is a volume change's, is applied, and plays other than the transport of the clock it meets. */
  predicate Contradicts(s: State, e: Event) {
    IsVolumeReply(s, e) && !(ShouldAnchor(e.reply) <==> Plays(s.clock))
  }

  /**
  From a clock that is anchored exactly while it plays and is not buffering, the next one published is so too,
  unless a volume reply brings it that plays where the clock's transport does not, or does not where it plays.
  */
  lemma AnchoredExactlyWhen(s: State, e: Event)
    requires IsAnchoredRight(s.clock) && Published(s, e).Some?
    ensures IsAnchoredRight(Published(s, e).value) <==> !Contradicts(s, e)
  {
    if e.AppliesPosition? {
      EventReduced(s.clock, e.event, e.at);
    }
  }

  /** In this run every volume reply that is applied plays exactly when the transport of the clock it meets does. */
  ghost predicate VolumeRepliesAgree(s: State, es: seq<Event>)
    decreases |es|
  {
    es != [] ==> !Contradicts(s, es[0]) && VolumeRepliesAgree(Step(s, es[0]), es[1..])
  }

  ghost predicate AllAnchoredRight(clocks: seq<Clock>) {
    forall clock <- clocks :: IsAnchoredRight(clock)
  }

  lemma StepPublishes(s: State, e: Event)
    requires !e.Replaces?
    ensures var t := Step(s, e);
            match Published(s, e)
            case None => t.published == s.published && t.clock == s.clock
            case Some(clock) => t.published == s.published + [clock] && t.clock == clock
  {
  }

  lemma StepAnchors(s: State, e: Event)
    requires !e.Replaces? && IsAnchoredRight(s.clock) && AllAnchoredRight(s.published)
    ensures var u := Step(s, e);
            if Contradicts(s, e) then |u.published| > |s.published| && !IsAnchoredRight(u.published[|s.published|])
            else IsAnchoredRight(u.clock) && AllAnchoredRight(u.published)
  {
    StepPublishes(s, e);
    if Published(s, e).Some? {
      AnchoredExactlyWhen(s, e);
    }
  }

  lemma RestLeavesAlone(es: seq<Event>)
    requires es != [] && LeavesClockAlone(es)
    ensures !es[0].Replaces? && LeavesClockAlone(es[1..])
  {
  }

  /** The anchor is right in every clock of a run that volume replies do not contradict, and only then. */
  lemma {:induction false} RunAnchoredExactlyWhen(s: State, es: seq<Event>, t: State)
    requires Runs(s, es, t) && LeavesClockAlone(es)
    requires IsAnchoredRight(s.clock) && AllAnchoredRight(s.published)
    ensures AllAnchoredRight(t.published) <==> VolumeRepliesAgree(s, es)
    decreases |es|
  {
    if es != [] {
      var u := Step(s, es[0]);
      RestLeavesAlone(es);
      StepAnchors(s, es[0]);
      if Contradicts(s, es[0]) {
        PublishedStays(u, es[1..], t);
        assert u.published[|s.published|] in t.published;
      } else {
        RunAnchoredExactlyWhen(u, es[1..], t);
      }
    }
  }

  lemma {:induction false} PublishedStays(s: State, es: seq<Event>, t: State)
    requires Runs(s, es, t)
    ensures s.published <= t.published
    decreases |es|
  {
    if es != [] {
      PublishedStays(Step(s, es[0]), es[1..], t);
    }
  }

  // ---------- the position shown ----------

  /** The anchor lies in the past. */
  predicate AnchoredBefore(s: State) {
    s.clock.playingSinceMs.Some? ==> s.clock.playingSinceMs.value <= s.now
  }

  lemma StepAnchoredBefore(s: State, e: Event)
    requires AnchoredBefore(s) && Possible(s, e) && !e.Replaces?
    ensures AnchoredBefore(Step(s, e))
  {
  }

  lemma {:induction false} RunAnchoredBefore(s: State, es: seq<Event>, t: State)
    requires Runs(s, es, t) && LeavesClockAlone(es) && AnchoredBefore(s)
    ensures AnchoredBefore(t)
    decreases |es|
  {
    if es != [] {
      assert forall e <- es[1..] :: e in es;
      StepAnchoredBefore(s, es[0]);
      RunAnchoredBefore(Step(s, es[0]), es[1..], t);
    }
  }

  /**
  A step that stops a running clock never moves the position shown back, unless it is the reply to a volume
  change: then the position falls back by all the time since the anchor, so it stays put only if that is none.
  */
  lemma StopMovesBackExactlyWhen(now: real, es: seq<Event>, s: State, e: Event)
    requires Runs(Start(now), es, s) && LeavesClockAlone(es)
    requires Possible(s, e) && !e.Replaces? && IsRunning(s.clock) && !IsRunning(Step(s, e).clock)
    ensures StopsForward(s.clock, Step(s, e).clock, e.at)
            <==> !(IsVolumeReply(s, e) && s.clock.playingSinceMs.value < e.at)
  {
    RunAnchoredBefore(Start(now), es, s);
    var after := Step(s, e).clock;
    if IsVolumeReply(s, e) {
      assert CurrentPosition(after, e.at) == s.clock.positionMs;
      assert CurrentPosition(s.clock, e.at) == s.clock.positionMs + (e.at - s.clock.playingSinceMs.value);
    } else if e.AppliesPosition? {
      var full := ReduceAuthoritativeSnapshot(s.clock, e.event.snapshot, e.at);
      assert StopsForward(s.clock, full.value, e.at);
    }
  }

  /**
  Such a run: a song plays, its volume is changed, and the transport, paused meanwhile, answers ten seconds
  later. The position shown goes from ten seconds back to zero, and the anchor stays though nothing plays.
  */
  lemma VolumeReplyMovesBack(playing: Snapshot)
    requires ShouldAnchor(playing) && playing.positionMs == 0.0
    ensures var s1 := Step(Start(0.0), AppliesSnapshot(playing, 0.0));
            var s2 := Step(s1, Asks(SetVolume, false, None, 0.0));
            var paused := Replies(SettingVolume, playing.(isPlaying := false), false, 10000.0);
            && Possible(s2, paused) && Contradicts(s2, paused)
            && CurrentPosition(s2.clock, 10000.0) == 10000.0 && CurrentPosition(Step(s2, paused).clock, 10000.0) == 0.0
            && !IsAnchoredRight(Step(s2, paused).clock)
  {
    var s1 := Step(Start(0.0), AppliesSnapshot(playing, 0.0));
    var s2 := Step(s1, Asks(SetVolume, false, None, 0.0));
    assert SettingVolume in s2.calls;
  }

  // ---------- stale replies ----------

  /** A stems reply that comes after the song has changed, and any reply of an older transport, changes no clock. */
  lemma LateRepliesChangeNothing(s: State, e: Event)
    requires Possible(s, e) && e.Replies?
    ensures IsStale(s.clock.snapshot, e.reply) ==> Step(s, e).clock == s.clock && Step(s, e).published == s.published
    ensures e.call.LoadingStemsOf? && !IsSong(s.clock, e.call.song) ==>
              Step(s, e).clock == s.clock && Step(s, e).published == s.published
  {
  }
}
