/**
 * The playback bookkeeping of the audio processor as values: each transport
 * operation is a function from the old flags to the new ones. The class
 * `AudioProcessing.AudioProcessor` is proved against these functions.
 */
module Transport {
  import opened Basics

  /** `hasElement` stands for `audioElement !== null`. */
  datatype State = State(
    hasElement: bool,
    isPlaying: bool,
    isPaused: bool,
    isSeeking: bool,
    isLoaded: bool,
    duration: real,
    currentTime: real)

  /** How a load ends, as reported by the browser collaborators. */
  datatype LoadOutcome =
    | FetchFailed                                   // fetch or reading the body rejected
    | DecodeFailed                                  // the element's `onerror`
    | TimedOut                                      // the 10 second timer won the race
    | MetadataLoaded(duration: real, wired: bool)   // `onloadedmetadata`; `wired` is false when resuming the context or connecting the source throws

  datatype LoadError = FetchError | DecodeError | Timeout | WiringError

  datatype Action = PauseAction | PlayAction

  /** The object a resolved `togglePlayPause` promise carries. */
  datatype Toggled = Toggled(action: Action, success: bool)

  datatype ToggleError = NoAudioLoaded | PlaybackFailed

  const Initial := State(false, false, false, false, false, 0.0, 0.0)

  /** What holds of every state the operations below can reach. */
  predicate Consistent(s: State) {
    && !(s.isPlaying && s.isPaused)
    && (s.isPlaying || s.isPaused || s.isLoaded || s.isSeeking ==> s.hasElement)
    && 0.0 <= s.currentTime
    && (s.currentTime == 0.0 || s.currentTime <= s.duration)
  }

  // ---- play / pause / toggle ----

  /** `play()`: the element's play promise resolves (`accepted`) or rejects. */
  function Play(s: State, accepted: bool): State {
    if !s.hasElement then s else s.(isPlaying := accepted, isPaused := false)
  }

  function PlayResult(s: State, accepted: bool): bool {
    s.hasElement && accepted
  }

  predicate CanPause(s: State) {
    s.hasElement && s.isPlaying
  }

  function Pause(s: State): State {
    if CanPause(s) then s.(isPlaying := false, isPaused := true) else s
  }

  /** The `wasPlaying` test of `togglePlayPause`. */
  predicate WasPlaying(s: State) {
    s.isPlaying && !s.isPaused
  }

  function Toggle(s: State, accepted: bool): State {
    if !s.hasElement then s
    else if WasPlaying(s) then Pause(s)
    else Play(s, accepted)
  }

  function ToggleReply(s: State, accepted: bool): Result<Toggled, ToggleError> {
    if !s.hasElement then Err(NoAudioLoaded)
    else if WasPlaying(s) then Ok(Toggled(PauseAction, true))
    else if PlayResult(s, accepted) then Ok(Toggled(PlayAction, true))
    else Err(PlaybackFailed)
  }

  // ---- seek / restart / stop ----

  /** `Math.max(0, Math.min(time, duration))`. */
  function Clamp(t: real, d: real): (r: real)
    requires 0.0 <= d
    ensures 0.0 <= r <= d
    ensures 0.0 <= t <= d ==> r == t
    ensures t < 0.0 ==> r == 0.0
    ensures d < t ==> r == d
  {
    Max(0.0, Min(t, d))
  }

  predicate CanSeek(s: State) {
    s.hasElement && s.duration > 0.0
  }

  function Seek(s: State, t: real): State {
    if CanSeek(s) then s.(isSeeking := true, currentTime := Clamp(t, s.duration)) else s
  }

  /** The 100 ms timer that `seekTo` arms. Earlier timers are never cancelled. */
  function SeekTimerFired(s: State): State {
    s.(isSeeking := false)
  }

  predicate CanRestart(s: State) {
    s.hasElement
  }

  function Restart(s: State): State {
    if CanRestart(s) then s.(currentTime := 0.0) else s
  }

  /** `stop()` keeps the element and the duration. */
  function Stop(s: State): State {
    s.(isPlaying := false, isPaused := false, currentTime := 0.0, isLoaded := false)
  }

  // ---- load ----

  /** `loadPredefinedAudio`: stop, create a new element, then react to the outcome. */
  function Load(s: State, outcome: LoadOutcome): State {
    var started := Stop(s).(hasElement := true);
    match outcome
    case MetadataLoaded(d, wired) =>
      var loaded := started.(duration := d, isLoaded := true);
      if wired then loaded else Stop(loaded)
    case _ => Stop(started)
  }

  /**
   * The element's `onloadedmetadata` handler firing outside the load step:
   * after its own load has already failed on the 10 second timer (the handler
   * stays attached), or while a later load is still pending. Either way it
   * records the duration and marks the track loaded, touching nothing else.
   */
  function LateMetadata(s: State, d: real): State {
    s.(duration := d, isLoaded := true)
  }

  function LoadReply(outcome: LoadOutcome): Result<(), LoadError> {
    match outcome
    case FetchFailed => Err(FetchError)
    case DecodeFailed => Err(DecodeError)
    case TimedOut => Err(Timeout)
    case MetadataLoaded(_, wired) => if wired then Ok(()) else Err(WiringError)
  }

  // ---- reads ----

  function Progress(s: State): real {
    if s.duration > 0.0 then s.currentTime / s.duration * 100.0 else 0.0
  }

  function IsAudioLoaded(s: State): bool {
    s.isLoaded && s.hasElement
  }

  // ---- properties ----

  lemma InitialIsIdle()
    ensures Consistent(Initial)
    ensures !Initial.isPlaying && !Initial.isPaused && !Initial.isSeeking && !Initial.isLoaded
    ensures Initial.duration == 0.0 && Initial.currentTime == 0.0
    ensures !IsAudioLoaded(Initial) && Progress(Initial) == 0.0
  {
  }

  /** Every operation keeps the invariant. */
  lemma OperationsKeepConsistent(s: State, accepted: bool, t: real, outcome: LoadOutcome)
    requires Consistent(s)
    ensures Consistent(Play(s, accepted))
    ensures Consistent(Pause(s))
    ensures Consistent(Toggle(s, accepted))
    ensures Consistent(Seek(s, t))
    ensures Consistent(SeekTimerFired(s))
    ensures Consistent(Restart(s))
    ensures Consistent(Stop(s))
    ensures Consistent(Load(s, outcome))
  {
  }

  /** `play()` with no element answers false and changes nothing; otherwise the driver decides. */
  lemma PlayOutcomes(s: State, accepted: bool)
    ensures !s.hasElement ==> Play(s, accepted) == s && !PlayResult(s, accepted)
    ensures s.hasElement && accepted ==>
      Play(s, accepted).isPlaying && !Play(s, accepted).isPaused && PlayResult(s, accepted)
    ensures s.hasElement && !accepted ==>
      !Play(s, accepted).isPlaying && !Play(s, accepted).isPaused && !PlayResult(s, accepted)
    ensures Play(s, accepted).(isPlaying := s.isPlaying, isPaused := s.isPaused) == s
  {
  }

  /** `pause()` succeeds only on a playing element, and then leaves it paused. */
  lemma PauseOutcomes(s: State)
    ensures CanPause(s) ==> !Pause(s).isPlaying && Pause(s).isPaused
    ensures !CanPause(s) ==> Pause(s) == s
    ensures Pause(s).(isPlaying := s.isPlaying, isPaused := s.isPaused) == s
  {
  }

  /** On a consistent state `togglePlayPause` pauses exactly when playing, and otherwise tries to play. */
  lemma {:induction false} ToggleIsPauseOrPlay(s: State, accepted: bool)
    requires Consistent(s)
    ensures !s.hasElement ==> ToggleReply(s, accepted) == Err(NoAudioLoaded) && Toggle(s, accepted) == s
    ensures s.hasElement && s.isPlaying ==>
      ToggleReply(s, accepted) == Ok(Toggled(PauseAction, true)) && Toggle(s, accepted) == Pause(s)
    ensures s.hasElement && !s.isPlaying ==>
      Toggle(s, accepted) == Play(s, accepted) &&
      (ToggleReply(s, accepted).Ok? <==> accepted) &&
      (accepted ==> ToggleReply(s, accepted) == Ok(Toggled(PlayAction, true)))
    ensures ToggleReply(s, accepted).Ok? ==> ToggleReply(s, accepted).value.success
  {
  }

  /** `seekTo` with an element and a positive duration clamps into [0, duration]; otherwise it is a no-op. */
  lemma SeekClamps(s: State, t: real)
    ensures CanSeek(s) ==>
      && 0.0 <= Seek(s, t).currentTime <= s.duration
      && Seek(s, t).isSeeking
      && Seek(s, t) == s.(isSeeking := true, currentTime := Seek(s, t).currentTime)
    ensures CanSeek(s) && 0.0 <= t <= s.duration ==> Seek(s, t).currentTime == t
    ensures !CanSeek(s) ==> Seek(s, t) == s
  {
  }

  /** The two worked examples of a 120 second track. */
  lemma SeekExamples(s: State)
    requires s.hasElement && s.duration == 120.0
    ensures Seek(s, -5.0).currentTime == 0.0
    ensures Seek(s, 500.0).currentTime == 120.0
  {
  }

  /** Progress is 0 without a positive duration and lies in [0, 100] on a consistent state. */
  lemma {:induction false} ProgressInRange(s: State)
    requires Consistent(s)
    ensures s.duration <= 0.0 ==> Progress(s) == 0.0
    ensures 0.0 <= Progress(s) <= 100.0
  {
    if s.duration > 0.0 {
      var q := s.currentTime / s.duration;
      assert q * s.duration == s.currentTime;
      assert 0.0 <= q <= 1.0;
    }
  }

  /** After a successful seek the progress is the clamped target's share of the duration. */
  lemma {:induction false} ProgressAfterSeek(s: State, t: real)
    requires CanSeek(s) && 0.0 <= t <= s.duration
    ensures Progress(Seek(s, t)) == t / s.duration * 100.0
    ensures 0.0 <= Progress(Seek(s, t)) <= 100.0
  {
    var q := t / s.duration;
    assert q * s.duration == t;
    assert 0.0 <= q <= 1.0;
  }

  /** `stop()` unloads and rewinds; `restart()` rewinds and touches no flag. */
  lemma StopAndRestart(s: State)
    ensures !Stop(s).isPlaying && !Stop(s).isPaused && !Stop(s).isLoaded && Stop(s).currentTime == 0.0
    ensures !IsAudioLoaded(Stop(s))
    ensures Stop(Stop(s)) == Stop(s)
    ensures Stop(s).duration == s.duration && Stop(s).hasElement == s.hasElement
    ensures CanRestart(s) ==> Restart(s) == s.(currentTime := 0.0)
    ensures !CanRestart(s) ==> Restart(s) == s
  {
  }

  /** A load starts by stopping, so its result does not depend on the old play, pause or load flags. */
  lemma LoadStopsFirst(s: State, outcome: LoadOutcome)
    ensures Load(s, outcome) == Load(Stop(s), outcome)
    ensures Load(s, outcome).hasElement
  {
  }

  /** A failed load leaves nothing loaded or playing; a successful one is loaded with the metadata's duration. */
  lemma LoadOutcomes(s: State, outcome: LoadOutcome)
    ensures LoadReply(outcome).Err? ==>
      var r := Load(s, outcome);
      !r.isLoaded && !r.isPlaying && !r.isPaused && !IsAudioLoaded(r) && r.currentTime == 0.0
    ensures LoadReply(outcome).Ok? ==>
      var r := Load(s, outcome);
      r.isLoaded && IsAudioLoaded(r) && !r.isPlaying && !r.isPaused &&
      r.duration == outcome.duration && r.currentTime == 0.0
    ensures LoadReply(outcome).Ok? <==> outcome.MetadataLoaded? && outcome.wired
  {
  }

  /** Metadata arriving after a timed-out load leaves a loaded track behind a failed load. */
  lemma TimedOutLoadCanEndLoaded(s: State, d: real)
    ensures LoadReply(TimedOut).Err?
    ensures var r := LateMetadata(Load(s, TimedOut), d);
      r.isLoaded && IsAudioLoaded(r) && r.duration == d && !r.isPlaying && Consistent(r)
  {
  }

  /**
   * A second load has begun (its `stop()` has unloaded and rewound the first
   * 200 s track) and is still pending; a seek to 150 s lands on the old
   * duration, and when the second track's metadata reports 100 s the handler
   * does not clamp the time, leaving the position past the end.
   */
  lemma LateMetadataCanBreakConsistency()
    ensures var pending := Stop(Load(Initial, MetadataLoaded(200.0, true))).(hasElement := true);
      var s := Seek(pending, 150.0);
      !pending.isLoaded && pending.currentTime == 0.0 && s.currentTime == 150.0 &&
      Consistent(s) && !Consistent(LateMetadata(s, 100.0))
  {
  }
}
