/**
 * The audio processor: transport flags updated in place by its operations,
 * and two fixed-length feature buffers that `Update` refills every frame.
 * Browser outcomes (the element's play promise, the load outcome, the
 * analyser's bytes) are parameters.
 */
module AudioProcessing {
  import opened Basics
  import opened Features
  import Transport

  class AudioProcessor {
    const frequencyData: array<Byte>
    const waveformData: array<Byte>

    var hasElement: bool     // `audioElement !== null`
    var isPlaying: bool
    var isPaused: bool
    var isSeeking: bool
    var isLoaded: bool
    var duration: real
    var currentTime: real

    /** The URLs handed to the fetch collaborator, oldest first. */
    ghost var requested: seq<string>

    /** Both buffers hold `frequencyBinCount` bytes and are distinct arrays. */
    ghost predicate Buffers() {
      frequencyData.Length == BinCount && waveformData.Length == BinCount && frequencyData != waveformData
    }

    /** The buffers have their shape and the transport flags are consistent. */
    ghost predicate Valid()
      reads this
    {
      Buffers() && Transport.Consistent(State())
    }

    ghost function State(): Transport.State
      reads this
    {
      Transport.State(hasElement, isPlaying, isPaused, isSeeking, isLoaded, duration, currentTime)
    }

    constructor ()
      ensures Valid() && fresh(frequencyData) && fresh(waveformData)
      ensures State() == Transport.Initial && requested == []
      ensures forall k :: 0 <= k < BinCount ==> frequencyData[k] == 0 && waveformData[k] == Centre
    {
      frequencyData := new Byte[BinCount];
      waveformData := new Byte[BinCount];
      hasElement, isPlaying, isPaused, isSeeking, isLoaded := false, false, false, false, false;
      duration, currentTime := 0.0, 0.0;
      requested := [];
      new;
      Fill(frequencyData, 0);
      Fill(waveformData, Centre);
    }

    /** `loadPredefinedAudio(url)`; `outcome` is what the browser reports. */
    method LoadPredefinedAudio(url: string, outcome: Transport.LoadOutcome) returns (r: Result<(), Transport.LoadError>)
      requires Valid()
      modifies this`hasElement, this`isPlaying, this`isPaused, this`isLoaded, this`duration, this`currentTime,
        this`requested
      ensures Valid()
      ensures State() == Transport.Load(old(State()), outcome)
      ensures r == Transport.LoadReply(outcome)
      ensures requested == old(requested) + [url]
    {
      Stop();
      hasElement := true;
      requested := requested + [url];
      match outcome {
        case MetadataLoaded(d, wired) =>
          duration := d;
          isLoaded := true;
          if wired {
            r := Ok(());
          } else {
            Stop();
            r := Err(Transport.WiringError);
          }
        case FetchFailed =>
          Stop();
          r := Err(Transport.FetchError);
        case DecodeFailed =>
          Stop();
          r := Err(Transport.DecodeError);
        case TimedOut =>
          Stop();
          r := Err(Transport.Timeout);
      }
    }

    /** `togglePlayPause()`; `accepted` says whether the element's play promise resolves. */
    method TogglePlayPause(accepted: bool) returns (r: Result<Transport.Toggled, Transport.ToggleError>)
      requires Valid()
      modifies this`isPlaying, this`isPaused
      ensures Valid()
      ensures State() == Transport.Toggle(old(State()), accepted)
      ensures r == Transport.ToggleReply(old(State()), accepted)
    {
      if !hasElement {
        return Err(Transport.NoAudioLoaded);
      }
      var wasPlaying := isPlaying && !isPaused;
      if wasPlaying {
        var _ := Pause();
        r := Ok(Transport.Toggled(Transport.PauseAction, true));
      } else {
        var success := Play(accepted);
        if success {
          r := Ok(Transport.Toggled(Transport.PlayAction, true));
        } else {
          r := Err(Transport.PlaybackFailed);
        }
      }
    }

    method Play(accepted: bool) returns (ok: bool)
      requires Valid()
      modifies this`isPlaying, this`isPaused
      ensures Valid()
      ensures State() == Transport.Play(old(State()), accepted)
      ensures ok == Transport.PlayResult(old(State()), accepted)
    {
      if !hasElement {
        return false;
      }
      if accepted {
        isPlaying, isPaused := true, false;
        ok := true;
      } else {
        isPlaying, isPaused := false, false;
        ok := false;
      }
    }

    method Pause() returns (ok: bool)
      requires Valid()
      modifies this`isPlaying, this`isPaused
      ensures Valid()
      ensures State() == Transport.Pause(old(State()))
      ensures ok == Transport.CanPause(old(State()))
    {
      if hasElement && isPlaying {
        isPlaying, isPaused := false, true;
        return true;
      }
      return false;
    }

    method SeekTo(time: real) returns (ok: bool)
      requires Valid()
      modifies this`isSeeking, this`currentTime
      ensures Valid()
      ensures State() == Transport.Seek(old(State()), time)
      ensures ok == Transport.CanSeek(old(State()))
    {
      if hasElement && duration > 0.0 {
        var validTime := Max(0.0, Min(time, duration));
        isSeeking := true;
        currentTime := validTime;
        return true;
      }
      return false;
    }

    /** The callback of the 100 ms timer armed by `SeekTo`. */
    method SeekTimerFired()
      requires Valid()
      modifies this`isSeeking
      ensures Valid()
      ensures State() == Transport.SeekTimerFired(old(State()))
    {
      isSeeking := false;
    }

    method Restart() returns (ok: bool)
      requires Valid()
      modifies this`currentTime
      ensures Valid()
      ensures State() == Transport.Restart(old(State()))
      ensures ok == Transport.CanRestart(old(State()))
    {
      if hasElement {
        currentTime := 0.0;
        return true;
      }
      return false;
    }

    method GetProgress() returns (p: real)
      requires Valid()
      ensures p == Transport.Progress(State())
      ensures duration <= 0.0 ==> p == 0.0
      ensures 0.0 <= p <= 100.0
    {
      Transport.ProgressInRange(State());
      if duration > 0.0 {
        p := currentTime / duration * 100.0;
        var q := currentTime / duration;
        assert q * duration == currentTime;
      } else {
        p := 0.0;
      }
    }

    /** The stored position, which never lies before the start or past the end of the track. */
    method GetCurrentTime() returns (t: real)
      requires Valid()
      ensures t == currentTime
      ensures 0.0 <= t && (t == 0.0 || t <= duration)
    {
      t := currentTime;
    }

    method IsAudioLoaded() returns (loaded: bool)
      ensures loaded == Transport.IsAudioLoaded(State())
      ensures loaded ==> isLoaded
    {
      loaded := isLoaded && hasElement;
    }

    method Stop()
      requires Valid()
      modifies this`isPlaying, this`isPaused, this`currentTime, this`isLoaded
      ensures Valid()
      ensures State() == Transport.Stop(old(State()))
    {
      isPlaying := false;
      isPaused := false;
      currentTime := 0.0;
      isLoaded := false;
    }

    /**
     * One frame of feature extraction. While playing, the analyser's current
     * spectrum and waveform (`frequency`, `waveform`) are copied in; otherwise
     * the buffers are reset to silence.
     */
    method Update(frequency: seq<Byte>, waveform: seq<Byte>)
      requires Buffers() && |frequency| == BinCount && |waveform| == BinCount
      modifies frequencyData, waveformData
      ensures isPlaying ==> frequencyData[..] == frequency && waveformData[..] == waveform
      ensures !isPlaying ==> forall k :: 0 <= k < BinCount ==> frequencyData[k] == 0 && waveformData[k] == Centre
    {
      if isPlaying {
        CopyInto(frequencyData, frequency);
        CopyInto(waveformData, waveform);
      } else {
        Fill(frequencyData, 0);
        Fill(waveformData, Centre);
      }
    }

    /** `calculateAudioLevel()`: the rounded mean of the frequency buffer as a percentage of 255. */
    method CalculateAudioLevel() returns (level: int)
      ensures level == Level(frequencyData[..])
      ensures 0 <= level <= 100
    {
      var n := frequencyData.Length;
      if n == 0 {
        return 0;
      }
      var total := 0;
      var i := 0;
      while i < n
        invariant 0 <= i <= n
        invariant total == Sum(frequencyData[..i])
      {
        assert frequencyData[..i + 1][..i] == frequencyData[..i];
        total := total + frequencyData[i];
        i := i + 1;
      }
      assert frequencyData[..n] == frequencyData[..];
      level := (200 * total + 255 * n) / (510 * n);
    }
  }
}
