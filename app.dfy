/**
 * The application glue: one processor and one engine, the body of a render
 * frame, stopping, switching and loading. The calls the application makes on
 * its UI collaborator are recorded in a ghost trace.
 *
 * The `App` class is the application as intended, against a UI manager that
 * defines every method it calls. `Issue` and `LoadAsWritten` model the code
 * as written against the UI manager that exists, which lacks
 * `setButtonStates` and `updatePropertiesPanel`: the first call to either
 * throws.
 */
module Application {
  import opened Basics
  import Features
  import Transport
  import AudioProcessing
  import ParticleSimulation
  import Dispatch

  /** A call on the UI manager. `AudioInfo` carries the fields of the object it is given. */
  datatype UiCall =
    | AudioInfo(status: Option<string>, level: Option<int>)
    | ButtonStates(enabled: bool)
    | PropertiesPanel
    | ShowError(error: AppError)

  /** The UI manager's methods that the application calls. */
  datatype UiMethod = UpdateAudioInfo | SetButtonStates | UpdatePropertiesPanel | ShowErrorMethod

  /** What a load's `catch` block receives: the processor's error, or the `TypeError` of a missing UI method. */
  datatype AppError = LoadFailed(error: Transport.LoadError) | MissingUiMethod(missing: UiMethod)

  function MethodOf(c: UiCall): UiMethod {
    match c
    case AudioInfo(_, _) => UpdateAudioInfo
    case ButtonStates(_) => SetButtonStates
    case PropertiesPanel => UpdatePropertiesPanel
    case ShowError(_) => ShowErrorMethod
  }

  /** The methods the program's UI manager defines among those called: `updateAudioInfo` and `showError`. */
  const ShownUiMethods: set<UiMethod> := {UpdateAudioInfo, ShowErrorMethod}

  /** A UI manager that defines every method the application calls. */
  const FullUiMethods: set<UiMethod> := {UpdateAudioInfo, SetButtonStates, UpdatePropertiesPanel, ShowErrorMethod}

  /** The calls that completed, and whether the next one threw. */
  datatype Issued = Issued(made: seq<UiCall>, threw: bool)

  /**
   * Issuing `calls` in order on a UI manager that defines `methods`: every
   * call completes until the first one to a missing method, which throws and
   * ends the run.
   */
  function Issue(methods: set<UiMethod>, calls: seq<UiCall>): (r: Issued)
    ensures !r.threw ==> r.made == calls
    ensures r.threw ==> |r.made| < |calls| && r.made == calls[..|r.made|] && MethodOf(calls[|r.made|]) !in methods
    ensures forall c :: c in r.made ==> MethodOf(c) in methods
  {
    if calls == [] then Issued([], false)
    else if MethodOf(calls[0]) !in methods then Issued([], true)
    else
      var rest := Issue(methods, calls[1..]);
      assert calls == [calls[0]] + calls[1..];
      Issued([calls[0]] + rest.made, rest.threw)
  }

  /** The method whose absence stopped a run. */
  function Missing(calls: seq<UiCall>, r: Issued): UiMethod
    requires r.threw ==> |r.made| < |calls|
  {
    if r.threw then MethodOf(calls[|r.made|]) else UpdateAudioInfo
  }

  /** Against a complete UI manager every call completes. */
  lemma FullUiNeverThrows(calls: seq<UiCall>)
    ensures Issue(FullUiMethods, calls) == Issued(calls, false)
  {
  }

  const AudioDirectory := "audio/"

  /** The reset the UI receives whenever audio stops or a load fails. */
  const OffInfo: seq<UiCall> := [AudioInfo(Some("OFF"), Some(0)), ButtonStates(false)]

  /** The path of a bundled track: the directory followed by the file name, nothing dropped or added. */
  function AssetPath(filename: string): (path: string)
    ensures |path| == |AudioDirectory| + |filename|
    ensures path[..|AudioDirectory|] == AudioDirectory && path[|AudioDirectory|..] == filename
  {
    AudioDirectory + filename
  }

  /** Different file names give different paths. */
  lemma AssetPathInjective(a: string, b: string)
    requires AssetPath(a) == AssetPath(b)
    ensures a == b
  {
    assert a == AssetPath(a)[|AudioDirectory|..];
  }

  /** The processor's transport after `stopAudio()`: stopped only if it was playing. */
  function StopAudioState(s: Transport.State): Transport.State {
    if s.isPlaying then Transport.Stop(s) else s
  }

  /** Whatever the state, nothing plays after `stopAudio()`. */
  lemma StopAudioSilences(s: Transport.State)
    ensures !StopAudioState(s).isPlaying
    ensures s.isPlaying ==> !StopAudioState(s).isLoaded && StopAudioState(s).currentTime == 0.0
  {
  }

  /** A paused processor is left as it is: still paused, still loaded, same position. */
  lemma StopAudioKeepsPause(s: Transport.State)
    requires Transport.Consistent(s) && s.isPaused
    ensures StopAudioState(s) == s
    ensures StopAudioState(s).isPaused && StopAudioState(s).isLoaded == s.isLoaded
  {
  }

  /** The UI calls of a load after the initial reset: success enables the buttons, failure reports and resets. */
  function LoadUi(filename: string, r: Result<(), Transport.LoadError>): seq<UiCall> {
    if r.Ok? then [AudioInfo(Some("PLAYING: " + filename), None), ButtonStates(true)]
    else [ShowError(LoadFailed(r.error))] + OffInfo
  }

  /** A failed load leaves the buttons disabled, a successful one enables them. */
  lemma LoadUiEndsWithButtons(filename: string, r: Result<(), Transport.LoadError>)
    ensures LoadUi(filename, r)[|LoadUi(filename, r)| - 1] == ButtonStates(r.Ok?)
  {
  }

  /** What the application's `loadPredefinedAudio` leaves: processor state, URLs fetched, UI calls made, and whether its promise rejects. */
  datatype LoadRun = LoadRun(state: Transport.State, requested: seq<string>, ui: seq<UiCall>, rejects: bool)

  /** The `catch` block: report, reset; a throw here escapes and rejects the promise. */
  function Recover(methods: set<UiMethod>, state: Transport.State, requested: seq<string>, ui: seq<UiCall>, error: AppError): LoadRun {
    var c := Issue(methods, [ShowError(error)] + OffInfo);
    LoadRun(state, requested, ui + c.made, c.threw)
  }

  /**
   * `loadPredefinedAudio(filename)` as written, against a UI manager that
   * defines `methods`: `stopAudio`, the announcement, the processor's load
   * and the success report inside `try`, every throw going to `Recover`.
   */
  function LoadAsWritten(methods: set<UiMethod>, s: Transport.State, filename: string, outcome: Transport.LoadOutcome): LoadRun {
    var stopped := StopAudioState(s);
    var off := Issue(methods, OffInfo);
    if off.threw then Recover(methods, stopped, [], off.made, MissingUiMethod(Missing(OffInfo, off)))
    else
      var announce := [AudioInfo(Some("LOADING..."), None)];
      var loading := Issue(methods, announce);
      var ui := off.made + loading.made;
      if loading.threw then Recover(methods, stopped, [], ui, MissingUiMethod(Missing(announce, loading)))
      else
        var loaded := Transport.Load(stopped, outcome);
        var requested := [AssetPath(filename)];
        var r := Transport.LoadReply(outcome);
        if r.Err? then Recover(methods, loaded, requested, ui, LoadFailed(r.error))
        else
          var report := [AudioInfo(Some("PLAYING: " + filename), None), ButtonStates(true)];
          var done := Issue(methods, report);
          if done.threw then Recover(methods, loaded, requested, ui + done.made, MissingUiMethod(Missing(report, done)))
          else LoadRun(loaded, requested, ui + done.made, false)
  }

  /**
   * With the program's UI manager, `new App()` throws at its second call so
   * the render loop never starts, `stopAudio` throws after stopping, and
   * `setVisualization` throws after switching.
   */
  lemma MissingUiMethodsThrow()
    ensures Issue(ShownUiMethods, OffInfo + [PropertiesPanel]) == Issued([AudioInfo(Some("OFF"), Some(0))], true)
    ensures Issue(ShownUiMethods, OffInfo) == Issued([AudioInfo(Some("OFF"), Some(0))], true)
    ensures Issue(ShownUiMethods, [PropertiesPanel]) == Issued([], true)
  {
  }

  /** With the program's UI manager a load never reaches the processor: the first reset throws, and so does the one in `catch`. */
  lemma LoadAsWrittenNeverLoads(s: Transport.State, filename: string, outcome: Transport.LoadOutcome)
    ensures var run := LoadAsWritten(ShownUiMethods, s, filename, outcome);
      && run.requested == []
      && run.state == StopAudioState(s)
      && run.rejects
      && run.ui == [AudioInfo(Some("OFF"), Some(0)), ShowError(MissingUiMethod(SetButtonStates)), AudioInfo(Some("OFF"), Some(0))]
  {
  }

  /** With a complete UI manager the code as written does what `App.LoadPredefinedAudio` promises, and never rejects. */
  lemma LoadWithFullUi(s: Transport.State, filename: string, outcome: Transport.LoadOutcome)
    ensures var run := LoadAsWritten(FullUiMethods, s, filename, outcome);
      && run.state == Transport.Load(StopAudioState(s), outcome)
      && run.requested == [AssetPath(filename)]
      && run.ui == OffInfo + [AudioInfo(Some("LOADING..."), None)] + LoadUi(filename, Transport.LoadReply(outcome))
      && !run.rejects
  {
  }

  class App {
    const processor: AudioProcessing.AudioProcessor
    const engine: Dispatch.VisualizationEngine
    ghost var ui: seq<UiCall>

    /** The engine drives this processor, and so does every visualisation it holds. */
    ghost predicate Valid()
      reads this, engine, processor
    {
      && processor.Valid()
      && engine.Valid()
      && engine.processor == processor
      && (forall k :: k in engine.visualizations ==> engine.visualizations[k].Processor() == processor)
      && (engine.current.Some? ==> engine.current.value.Processor() == processor)
    }

    /** The constructor and `init()` without the render loop's scheduling. */
    constructor (canvas: Canvas, spawnDraws: seq<real>)
      requires |spawnDraws| == ParticleSimulation.SpawnDraws * ParticleSimulation.ParticleCount
      requires AllUnitDraws(spawnDraws)
      ensures Valid()
      ensures processor.State() == Transport.Initial && engine.canvas == canvas
      ensures engine.visualizations.Keys == {"spectrum", "waveform", "particles"}
      ensures engine.current == Some(engine.visualizations["spectrum"])
      ensures ui == OffInfo + [PropertiesPanel]
    {
      var p := new AudioProcessing.AudioProcessor();
      var e := new Dispatch.VisualizationEngine(canvas);
      e.SetAudioProcessor(p, spawnDraws);
      processor := p;
      engine := e;
      ui := OffInfo + [PropertiesPanel];
    }

    /**
     * One frame of `startRender`: the processor refreshes its buffers first;
     * then, while playing, the level is computed, the engine draws and the
     * level is reported; otherwise only the surface is cleared.
     */
    method RenderStep(frequency: seq<Byte>, waveform: seq<Byte>, jitter: seq<real>)
      requires Valid()
      requires |frequency| == Features.BinCount && |waveform| == Features.BinCount
      requires |jitter| == ParticleSimulation.JitterDraws * ParticleSimulation.ParticleCount
      requires AllUnitDraws(jitter)
      modifies processor.frequencyData, processor.waveformData, engine`calls, engine.DrawFootprint(), this`ui
      ensures Valid()
      ensures processor.isPlaying ==>
        && processor.frequencyData[..] == frequency && processor.waveformData[..] == waveform
        && engine.calls == old(engine.calls) +
             (if engine.current.None? then []
              else [Dispatch.Invoked(engine.current.value, Dispatch.UpdateOp),
                    Dispatch.Invoked(engine.current.value, Dispatch.DrawOp)])
        && ui == old(ui) + [AudioInfo(None, Some(Features.Level(frequency)))]
      ensures processor.isPlaying && engine.current.Some? && engine.current.value.Particles? ==>
        var p := engine.current.value.p;
        forall k :: 0 <= k < ParticleSimulation.ParticleCount ==>
          p.particles[k] == ParticleSimulation.Step(old(p.particles[k]), k, ParticleSimulation.ParticleCount,
            frequency, p.canvas.width, p.canvas.height, jitter[2 * k], jitter[2 * k + 1])
      ensures !processor.isPlaying ==>
        && (forall k :: 0 <= k < Features.BinCount ==>
              processor.frequencyData[k] == 0 && processor.waveformData[k] == Features.Centre)
        && engine.calls == old(engine.calls) + [Dispatch.ClearedSurface]
        && ui == old(ui)
      ensures !processor.isPlaying ==> unchanged(engine.DrawFootprint())
    {
      processor.Update(frequency, waveform);
      if processor.isPlaying {
        var level := processor.CalculateAudioLevel();
        engine.Draw(jitter);
        ui := ui + [AudioInfo(None, Some(level))];
      } else {
        engine.ClearCanvas();
      }
    }

    /** `stopAudio()`: stop the processor only if it is playing, then reset the UI. */
    method StopAudio()
      requires Valid()
      modifies processor`isPlaying, processor`isPaused, processor`currentTime, processor`isLoaded, this`ui
      ensures Valid()
      ensures processor.State() == StopAudioState(old(processor.State()))
      ensures ui == old(ui) + OffInfo
    {
      if processor.isPlaying {
        processor.Stop();
      }
      ui := ui + OffInfo;
    }

    /** `setVisualization(type)`: the properties panel is refreshed only when the engine accepts the key. */
    method SetVisualization(key: string)
      requires Valid()
      modifies engine`current, this`ui
      ensures Valid()
      ensures key in engine.visualizations ==>
        engine.current == Some(engine.visualizations[key]) && ui == old(ui) + [PropertiesPanel]
      ensures key !in engine.visualizations ==> engine.current == old(engine.current) && ui == old(ui)
    {
      var ok := engine.SetVisualization(key);
      if ok {
        ui := ui + [PropertiesPanel];
      }
    }

    /**
     * `loadPredefinedAudio(filename)`: stop, announce the load, hand the
     * asset path to the processor, then report the outcome.
     */
    method LoadPredefinedAudio(filename: string, outcome: Transport.LoadOutcome)
      requires Valid()
      modifies processor`hasElement, processor`isPlaying, processor`isPaused, processor`isLoaded,
        processor`duration, processor`currentTime, processor`requested, this`ui
      ensures Valid()
      ensures processor.State() == Transport.Load(StopAudioState(old(processor.State())), outcome)
      ensures processor.requested == old(processor.requested) + [AssetPath(filename)]
      ensures ui == old(ui) + OffInfo + [AudioInfo(Some("LOADING..."), None)]
        + LoadUi(filename, Transport.LoadReply(outcome))
    {
      StopAudio();
      ui := ui + [AudioInfo(Some("LOADING..."), None)];
      var path := AssetPath(filename);
      var r := processor.LoadPredefinedAudio(path, outcome);
      ui := ui + LoadUi(filename, r);
    }
  }
}
