/**
The position clock of playback: the last known transport snapshot, a position, and the moment since which
the position has been running. Snapshots and position events replace it; the reading is extrapolated.
*/
module PositionClock {
  import opened Basics

  datatype TransportState = Idle | Loading | Playing | Buffering

  datatype StemMode = TwoStem | FourStem

  datatype StemVolumes = StemVolumes(vocals: real, drums: real, bass: real, other: real)

  datatype Snapshot = Snapshot(
    songId: Option<string>, transportGeneration: nat, state: TransportState, isPlaying: bool,
    positionMs: real, durationMs: Option<real>, bufferedMs: real, volume: real,
    stemVolumes: StemVolumes, hasStems: bool, stemMode: Option<StemMode>)

  datatype PositionEvent = PositionEvent(ms: real, transportGeneration: nat, snapshot: Snapshot)

  datatype Clock = Clock(snapshot: Option<Snapshot>, positionMs: real, playingSinceMs: Option<real>)

  const INITIAL := Clock(None, 0.0, None)

  predicate ShouldAnchor(snapshot: Snapshot) {
    snapshot.isPlaying && snapshot.state != Buffering
  }

  function ResolvePlayingSince(next: Snapshot, now: real): Option<real> {
    if ShouldAnchor(next) then Some(now) else None
  }

  predicate IsStale(current: Option<Snapshot>, next: Snapshot) {
    current.Some? && next.transportGeneration < current.value.transportGeneration
  }

  /** What the clock shows at a moment. */
  function CurrentPosition(clock: Clock, now: real): real {
    if IsRunning(clock) then clock.positionMs + (now - clock.playingSinceMs.value) else clock.positionMs
  }

  predicate IsRunning(clock: Clock) {
    clock.snapshot.Some? && ShouldAnchor(clock.snapshot.value) && clock.playingSinceMs.Some?
  }

  /** A snapshot that stops a running clock must not show less than was shown already. */
  function ResolveAuthoritativePosition(prev: Clock, next: Snapshot, now: real): real {
    if IsRunning(prev) && !ShouldAnchor(next) then MaxReal(next.positionMs, CurrentPosition(prev, now))
    else next.positionMs
  }

  function Authoritative(prev: Clock, next: Snapshot, now: real): Clock {
    Clock(Some(next), ResolveAuthoritativePosition(prev, next, now), ResolvePlayingSince(next, now))
  }

  /** Nothing the first clock knew is newer than what the second one knows. */
  predicate NotOlder(before: Clock, after: Clock) {
    before.snapshot.Some? ==>
      after.snapshot.Some? && before.snapshot.value.transportGeneration <= after.snapshot.value.transportGeneration
  }

  /** The position is anchored to a moment exactly while the transport plays and is not buffering. */
  predicate IsAnchoredRight(clock: Clock) {
    if clock.snapshot.None? then clock.playingSinceMs.None?
    else clock.playingSinceMs.Some? <==> ShouldAnchor(clock.snapshot.value)
  }

  /** What it showed at any moment up to `now` is at most what it shows at any moment from `now` on, having stopped. */
  ghost predicate StopsForward(before: Clock, after: Clock, now: real) {
    IsRunning(before) && !IsRunning(after) ==>
      forall earlier: real, later: real | earlier <= now <= later ::
        CurrentPosition(before, earlier) <= CurrentPosition(after, later)
  }

  /**
  What the clock shows from `now` on: a position that moves from the snapshot's, or one that stands there, though
  no further back than what was shown.
  */
  ghost predicate GoesOnFrom(prev: Clock, next: Snapshot, clock: Clock, now: real) {
    forall moment :: CurrentPosition(clock, moment)
      == if next.isPlaying && next.state != Buffering then next.positionMs + (moment - now)
         else if IsRunning(prev) && CurrentPosition(prev, now) > next.positionMs then CurrentPosition(prev, now)
         else next.positionMs
  }

  /** The position aside, two snapshots say the same. */
  predicate SameButPosition(a: Snapshot, b: Snapshot) {
    a.(positionMs := 0.0) == b.(positionMs := 0.0)
  }

  /** The snapshot is the one before in all but its position and what is buffered. */
  predicate OnlyMovesOn(prev: Clock, next: Snapshot) {
    prev.snapshot.Some? && SameButPosition(prev.snapshot.value.(bufferedMs := next.bufferedMs), next)
  }

  /** Refused exactly when a newer transport is known; applied, it is anchored right and never stops backwards. */
  function ReduceAuthoritativeSnapshot(prev: Clock, next: Snapshot, now: real): (reduced: Option<Clock>)
    ensures match reduced
            case None => prev.snapshot.Some? && next.transportGeneration < prev.snapshot.value.transportGeneration
            case Some(clock) =>
              && clock.snapshot == Some(next) && NotOlder(prev, clock)
              && IsAnchoredRight(clock) && StopsForward(prev, clock, now)
              && GoesOnFrom(prev, next, clock, now)
  {
    if IsStale(prev.snapshot, next) then None else Some(Authoritative(prev, next, now))
  }

  predicate ShouldReplaceSnapshot(current: Option<Snapshot>, next: Snapshot) {
    current.None? ||
    var c := current.value;
    || c.songId != next.songId || c.transportGeneration != next.transportGeneration || c.state != next.state
    || c.isPlaying != next.isPlaying || c.durationMs != next.durationMs || c.volume != next.volume
    || c.hasStems != next.hasStems || c.stemMode != next.stemMode
    || c.stemVolumes.vocals != next.stemVolumes.vocals || c.stemVolumes.drums != next.stemVolumes.drums
    || c.stemVolumes.bass != next.stemVolumes.bass || c.stemVolumes.other != next.stemVolumes.other
  }

  /**
  The light path of position events is the snapshot path: when its generations match, an event does to the
  clock what its snapshot would do, except that an unchanged snapshot keeps the position it came with.
  */
  function ReducePositionEvent(prev: Clock, event: PositionEvent, now: real): (reduced: Option<Clock>)
    ensures event.transportGeneration != event.snapshot.transportGeneration ==> reduced == None
    ensures event.transportGeneration == event.snapshot.transportGeneration ==>
      match (reduced, ReduceAuthoritativeSnapshot(prev, event.snapshot, now))
      case (Some(light), Some(full)) =>
        && light.positionMs == full.positionMs && light.playingSinceMs == full.playingSinceMs
        && light.snapshot.Some? && SameButPosition(light.snapshot.value, event.snapshot)
        && light.snapshot.value.positionMs == (if OnlyMovesOn(prev, event.snapshot) then prev.snapshot.value.positionMs
                                               else event.snapshot.positionMs)
        && forall moment :: CurrentPosition(light, moment) == CurrentPosition(full, moment)
      case (None, None) => true
      case _ => false
  {
    var next := event.snapshot;
    if event.transportGeneration != next.transportGeneration || IsStale(prev.snapshot, next) then None
    else if ShouldReplaceSnapshot(prev.snapshot, next) then Some(Authoritative(prev, next, now))
    else
      var snapshot :=
        if prev.snapshot.None? then next
        else
          var c := prev.snapshot.value;
          if next.isPlaying != c.isPlaying || next.state != c.state || next.bufferedMs != c.bufferedMs
          then c.(isPlaying := next.isPlaying, state := next.state, bufferedMs := next.bufferedMs)
          else c;
      Some(Clock(Some(snapshot), next.positionMs, ResolvePlayingSince(next, now)))
  }
}
