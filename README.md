# Audio visualiser core in Dafny

A model of the browser audio visualiser's playback bookkeeping and its frame
dispatch, with the properties the code promises proved about it.

- **Transport** (`transport.dfy`) writes the flags of the audio processor as
  values: `hasElement` (an audio element exists), `isPlaying`, `isPaused`,
  `isSeeking`, `isLoaded`, `duration` and `currentTime`. Each operation is a
  function from the old flags to the new ones: play, pause, toggle, seek,
  the seek timer, restart, stop and load. It proves that they keep a
  consistency invariant, that seeking clamps and that a failed load unloads.
- **Features** (`features.dfy`) holds the buffer sizes (`fftSize` 256, so 128
  bins) and the loudness percentage. The mean byte over 255, as an exact
  rational, is rounded in integers as `(200 * total + 255 * len) / (510 * len)`.
  This is proved to be the nearest integer to that rational, halves rounding
  up, as `Math.round` does. Rounding the double-precision quotient instead can
  differ at exact halves.
- **AudioProcessing** (`audio_processor.dfy`) is the `AudioProcessor` class.
  Its fields are updated in place. Each method is proved against the
  corresponding Transport function: `Toggle` for `TogglePlayPause`, `Seek` for
  `SeekTo`, `Load` for `LoadPredefinedAudio`, `Progress` for `GetProgress`, and
  `Play`, `Pause`, `SeekTimerFired`, `Restart`, `Stop` and `IsAudioLoaded` for
  the methods of those names. Every method keeps the consistency invariant.
  `GetCurrentTime`, `Update` and `CalculateAudioLevel` have no Transport
  counterpart. The two byte buffers are arrays, and `Update` refills them in
  place. `CalculateAudioLevel` is the summing loop,
  proved equal to the level function.
- **BaseVisualization** (`audio_visualization.dfy`) is the shared base
  class. It has the abstract-class guard, the frame counter, the idle buffers,
  the property table, normalisation with the sensitivity cap, and the
  level-driven hue.
- **ParticleSimulation** (`particles.dfy`) holds the 80 particles in an
  array. `Update` and `Resize` change them in place, one pure `Step` or
  `Place` per particle. `DrawConnections` is the nested pair loop; it lists
  every close pair `i < j` once, in drawing order.
- **SimpleVisualizations** (`simple_visualizations.dfy`) has the spectrum
  and waveform classes, reduced to what the dispatcher relies on.
- **Dispatch** (`visualization_engine.dfy`) is the `VisualizationEngine`. It
  keeps a key-to-instance map built once per processor and a pointer to the
  active instance. `Draw` goes to the active instance only, and `Resize` is
  broadcast to every registered instance. A ghost trace records each call the
  engine makes.
- **Application** (`app.dfy`) is the `App` glue: the body of one render
  frame, `stopAudio`, `setVisualization` and `loadPredefinedAudio`. A ghost
  trace records the calls on the UI manager. The class assumes a UI manager
  that defines every method it calls. `LoadAsWritten` models the load against
  the UI manager that exists, which lacks two of them (see Findings).

Browser outcomes are parameters:
- whether the element's play promise resolves;
- how a load ends (fetch or decode failure, timeout, metadata with a
  duration, and whether wiring the audio graph succeeded);
- the analyser's bytes;
- the values of `Math.random()`, as reals in [0, 1).

Where the code differs from what its names suggest, the model follows the
code:
- `play()` checks only that an audio element exists, not `isLoaded`.
- `stop()` keeps the element and the duration.
- `updateProperty` applies no range check.
- The 100 ms seek timers are never cancelled, so each one clears
  `isSeeking` when it fires.
- `resize` reaches every registered visualisation, not only the active one.
- `getCurrentTime()` returns the last position the processor stored: 0 after
  a stop or restart, or the last seek target. It does not return the
  element's live position.
- The three concrete visualisations do not extend the base class.

## Model

| member | source | states |
|---|---|---|
| Features.Level | AudioProcessor.js:209-217 | the loudness percentage is always within [0, 100] |
| Features.SumBounded | AudioProcessor.js:212-215 | the accumulated total of a byte buffer is at most 255 per element |
| Features.RoundedPercentIsNearest | AudioProcessor.js:216 | the integer formula lies within one half of `100 * total / (255 * len)`, i.e. it is `Math.round` of it |
| Features.LevelRoundsMean | AudioProcessor.js:209-217 | for a non-empty buffer the level is the mean byte as a percentage of 255, rounded to nearest |
| Features.LevelOfSilence | AudioProcessor.js:209-217 | an all-zero buffer has level 0 |
| Features.LevelOfFullScale | AudioProcessor.js:209-217 | an all-255 buffer has level 100 |
| Transport.Clamp | AudioProcessor.js:152 | `max(0, min(t, duration))` lies in [0, duration], is `t` inside it and the nearer end outside it |
| Transport.InitialIsIdle | AudioProcessor.js:11-19 | a fresh processor is consistent, neither playing, paused, seeking nor loaded, with duration and time 0 and progress 0 |
| Transport.OperationsKeepConsistent | AudioProcessor.js:28-197 | play, pause, toggle, seek, the seek timer, restart, stop and every load outcome keep the consistency invariant (never playing and paused at once, time within the duration) |
| Transport.PlayOutcomes | AudioProcessor.js:118-137 | without an element play answers false and changes nothing; an accepted play sets playing and clears paused; a rejected play clears both; no other field changes |
| Transport.PauseOutcomes | AudioProcessor.js:140-148 | pause succeeds only on a playing element and then leaves it paused, not playing; otherwise nothing changes |
| Transport.ToggleIsPauseOrPlay | AudioProcessor.js:89-115 | toggle rejects without an element, pauses with `{pause, true}` when playing, otherwise plays and resolves `{play, true}` exactly when play succeeds |
| Transport.SeekClamps | AudioProcessor.js:150-161 | with an element and a positive duration seek sets `isSeeking` and a time within [0, duration], changing nothing else; otherwise it is a no-op |
| Transport.SeekExamples | AudioProcessor.js:150-161 | on a 120 s track a seek to -5 lands at 0 and a seek to 500 at 120 |
| Transport.ProgressInRange | AudioProcessor.js:172-177 | progress is 0 without a positive duration and lies in [0, 100] on every consistent state |
| Transport.ProgressAfterSeek | AudioProcessor.js:150-177 | after a seek to a time within the track, progress is that time's share of the duration |
| Transport.StopAndRestart | AudioProcessor.js:163-197 | stop clears playing, paused and loaded, rewinds, is idempotent and keeps element and duration; restart rewinds and touches no flag |
| Transport.LoadStopsFirst | AudioProcessor.js:28-33 | a load's result does not depend on the old play, pause or load flags, and leaves an element |
| Transport.LoadOutcomes | AudioProcessor.js:28-85 | a failed load leaves nothing loaded or playing; a wired metadata load is loaded with the metadata's duration; success happens exactly for wired metadata |
| Transport.TimedOutLoadCanEndLoaded | AudioProcessor.js:49-51 | the metadata handler stays attached after a timeout has rejected the load, so metadata arriving late marks the processor loaded with that duration while the load was reported failed |
| Transport.LateMetadataCanBreakConsistency | AudioProcessor.js:28-51 | metadata from a second load that is still pending replaces the duration without clamping the time: once that load's stop has unloaded and rewound a 200 s track, a seek to 150 s followed by metadata of 100 s leaves the time past the end |
| AudioProcessing.AudioProcessor.constructor | AudioProcessor.js:3-25 | the initial transport state, a 0-filled frequency buffer and a 128-filled waveform buffer, both of 128 bins |
| AudioProcessing.AudioProcessor.LoadPredefinedAudio | AudioProcessor.js:28-85 | the new state is the Transport load of the old one, the reply matches the outcome and the URL is handed to the fetch collaborator |
| AudioProcessing.AudioProcessor.TogglePlayPause | AudioProcessor.js:89-115 | state and reply are the Transport toggle of the old state |
| AudioProcessing.AudioProcessor.Play | AudioProcessor.js:118-137 | state and answer are the Transport play of the old state |
| AudioProcessing.AudioProcessor.Pause | AudioProcessor.js:140-148 | state and answer are the Transport pause of the old state |
| AudioProcessing.AudioProcessor.SeekTo | AudioProcessor.js:150-161 | state and answer are the Transport seek of the old state |
| AudioProcessing.AudioProcessor.SeekTimerFired | AudioProcessor.js:157 | the timer only clears `isSeeking` |
| AudioProcessing.AudioProcessor.Restart | AudioProcessor.js:163-170 | state and answer are the Transport restart of the old state |
| AudioProcessing.AudioProcessor.GetProgress | AudioProcessor.js:172-177 | the Transport progress: 0 without a positive duration, and always within [0, 100] because every method keeps the time within the track |
| AudioProcessing.AudioProcessor.GetCurrentTime | AudioProcessor.js:179-181 | the stored position, which is never negative and is either 0 or within the track's duration |
| AudioProcessing.AudioProcessor.IsAudioLoaded | AudioProcessor.js:183-185 | loaded and an element exists |
| AudioProcessing.AudioProcessor.Stop | AudioProcessor.js:187-197 | the state is the Transport stop of the old one |
| AudioProcessing.AudioProcessor.Update | AudioProcessor.js:199-207 | while playing both buffers hold the analyser's bytes; otherwise frequency all 0 and waveform all 128 |
| AudioProcessing.AudioProcessor.CalculateAudioLevel | AudioProcessor.js:209-217 | the summing loop yields the level of the frequency buffer, within [0, 100] |
| BaseVisualization.LevelHue | AudioVisualization.js:165-173 | the hue is 100 at level 0, 90 at level 100, and within [90, 100] in between |
| BaseVisualization.HueDecreasesWithLevel | AudioVisualization.js:165-173 | a louder level never gives a larger hue |
| BaseVisualization.NormalizeData | AudioVisualization.js:135-144 | same length, element `i` is `data[i] / 255`, each within [0, 1]; empty input gives empty output |
| BaseVisualization.AudioVisualization.BufferSize | AudioVisualization.js:35-37 | with a processor the visualisation's buffers are exactly as long as the processor's, so the copy in `update()` fits; 256 without one |
| BaseVisualization.AudioVisualization.constructor | AudioVisualization.js:10-39 | default properties (`audioSensitivity` 1.0 in [0.1, 2.0] step 0.1), default colours, frame count 0, two fresh zero-filled buffers of the chosen size |
| BaseVisualization.AudioVisualization.Instantiate | AudioVisualization.js:2-8 | constructing the base class itself is an error; construction through a subclass yields a valid fresh instance |
| BaseVisualization.AudioVisualization.UpdateAsWritten | AudioVisualization.js:47-59 | the frame counter grows by one; while playing the call fails on the processor's missing methods; otherwise the buffers are reset to silence |
| BaseVisualization.PlayingUpdateThrows | AudioVisualization.js:51-53 | a loaded, playing processor makes the update as written fail |
| BaseVisualization.AudioVisualization.Update | AudioVisualization.js:47-59 | the frame counter grows by one; while playing the buffers hold the processor's bytes, otherwise frequency all 0 and waveform all 128 |
| BaseVisualization.AudioVisualization.Resize | AudioVisualization.js:61-65 | the canvas takes the new size |
| BaseVisualization.AudioVisualization.PropertiesRoundTrip | AudioVisualization.js:67-79 | a snapshot taken before an update still equals the old table; one taken after a successful update has the new value under the name, bounds and step kept, every other entry unchanged; an unknown name changes nothing |
| BaseVisualization.AudioVisualization.UpdateProperty | AudioVisualization.js:72-79 | true exactly for a known name; then only that entry's value changes (bounds and step kept, no range check); an unknown name changes nothing |
| BaseVisualization.AudioVisualization.GetSensitiveData | AudioVisualization.js:146-156 | same length, element `i` is `min(1, data[i] / 255 * sensitivity)`, never above 1, and not negative for a non-negative sensitivity |
| BaseVisualization.AudioVisualization.GetDynamicColor | AudioVisualization.js:158-184 | the stored colours when colouring by level is off; otherwise an HSL primary with saturation 90, lightness 60 and the level's hue, within [90, 100] for a level in [0, 100]; the secondary is always the stored one |
| ParticleSimulation.Spawn | ParticleVisualization.js:12-18 | a new particle lies on the canvas, with both velocity components in [-1, 1) and radius in [1, 4) |
| ParticleSimulation.BinIndex | ParticleVisualization.js:87 | the frequency bin a particle samples is within the buffer |
| ParticleSimulation.BinIndexIsFloor | ParticleVisualization.js:87 | the integer bin index is the floor of `i / n * len` |
| ParticleSimulation.BinIntensity | ParticleVisualization.js:88 | the intensity lies in [0, 1] |
| ParticleSimulation.PerturbationBounded | ParticleVisualization.js:90-91 | the audio nudge of a velocity component has magnitude at most a quarter of the intensity |
| ParticleSimulation.Step | ParticleVisualization.js:76-91 | a particle moves by its own velocity, keeps its radius, and its new velocity is the edge-reflected one plus at most a quarter of the intensity |
| ParticleSimulation.SpeedGrowthPerFrame | ParticleVisualization.js:79-91 | one frame adds at most 0.25 to either velocity component's magnitude |
| ParticleSimulation.Place | ParticleVisualization.js:100-103 | a repositioned particle lies on the resized canvas and keeps its velocity and radius |
| ParticleSimulation.OpacityInRange | ParticleVisualization.js:57-58 | for a linked pair the line opacity `1 - d / 100` lies in (0, 1] |
| ParticleSimulation.VisitPairKeepsInvariant | ParticleVisualization.js:49-58 | visiting pair `(i, j)` appends it exactly when it is closer than 100 and keeps the lines sound, ordered and covering every pair visited so far |
| ParticleSimulation.OrderedLinksAreDistinct | ParticleVisualization.js:48-49 | lines in visiting order name each pair at most once |
| ParticleSimulation.ParticleVisualization.constructor | ParticleVisualization.js:3-20 | exactly 80 particles, particle `k` spawned from its own five draws |
| ParticleSimulation.ParticleVisualization.Update | ParticleVisualization.js:71-93 | every particle takes one step reading the processor's frequency buffer; the count is unchanged |
| ParticleSimulation.ParticleVisualization.Resize | ParticleVisualization.js:95-104 | the canvas takes the new size and every particle a new place from its two draws; the count is unchanged |
| ParticleSimulation.ParticleVisualization.DrawConnections | ParticleVisualization.js:45-69 | the lines drawn are exactly the pairs `i < j` closer than 100, each once, in loop order, with their squared distances |
| SimpleVisualizations.SpectrumVisualization.constructor | SpectrumVisualization.js:3-8 | shares the given canvas and processor |
| SimpleVisualizations.SpectrumVisualization.Resize | SpectrumVisualization.js:39-42 | the canvas takes the new size |
| SimpleVisualizations.WaveformVisualization.constructor | WaveformVisualization.js:3-8 | shares the given canvas and processor |
| SimpleVisualizations.WaveformVisualization.Resize | WaveformVisualization.js:65-68 | the canvas takes the new size |
| Dispatch.ResizeCalls | VisualizationEngine.js:69-71 | the broadcast makes at most one call per visited key, each a resize to the requested size |
| Dispatch.ResizeReachesEvery | VisualizationEngine.js:64-72 | every registered instance receives the resize, not only the active one |
| Dispatch.VisualizationEngine.constructor | VisualizationEngine.js:7-24 | no processor, an empty map and no active visualisation |
| Dispatch.VisualizationEngine.SetAudioProcessor | VisualizationEngine.js:26-30 | with a processor the three keys are registered on it and the spectrum is active; without one the map is unchanged and the spectrum is activated only if registered |
| Dispatch.VisualizationEngine.InitVisualizations | VisualizationEngine.js:32-42 | with a processor exactly the keys spectrum, waveform and particles, each a fresh instance of its kind on that processor; without one nothing changes |
| Dispatch.VisualizationEngine.SetVisualization | VisualizationEngine.js:44-50 | true exactly for a registered key, and then the active instance is the one stored under it; otherwise the active one stays; the map is never changed |
| Dispatch.VisualizationEngine.Draw | VisualizationEngine.js:52-57 | update then draw on the active instance only, nothing without one; for the particles every particle takes one step |
| Dispatch.VisualizationEngine.ClearCanvas | VisualizationEngine.js:59-62 | only the surface is cleared; no visualisation is invoked |
| Dispatch.VisualizationEngine.Resize | VisualizationEngine.js:64-72 | the canvas takes the new size and every registered instance a resize, in registration order; the particles are repositioned |
| Application.AssetPath | App.js:31 | the path is `audio/` followed by the file name, nothing dropped or added |
| Application.AssetPathInjective | App.js:31 | different file names give different paths |
| Application.StopAudioSilences | App.js:44-47 | after `stopAudio` nothing plays; a playing processor is unloaded and rewound |
| Application.StopAudioKeepsPause | App.js:44-47 | a paused processor is left untouched: still paused, equally loaded, same position |
| Application.LoadUiEndsWithButtons | App.js:34-40 | a successful load ends by enabling the buttons, a failed one by disabling them |
| Application.App.constructor | App.js:7-23 | a fresh processor wired into the engine with the three visualisations and the spectrum active; the UI is reset and the properties panel drawn |
| Application.App.RenderStep | App.js:59-69 | the processor refreshes its buffers first; while playing the active visualisation is updated and drawn on those new bytes and their level is reported; otherwise only the surface is cleared, the particles stay as they were and nothing is reported |
| Application.App.StopAudio | App.js:44-50 | the processor is stopped only if it is playing; the UI is reset either way |
| Application.App.SetVisualization | App.js:52-56 | the properties panel is refreshed exactly when the engine accepts the key |
| Application.App.LoadPredefinedAudio | App.js:26-42 | stop first, announce, load `audio/` + file name, then report success with enabled buttons or the error with a reset UI |
| Application.Issue | App.js:19-21 | calls on a UI manager complete in order until the first call to a method it does not define, which throws; the calls made are a prefix of those asked for |
| Application.FullUiNeverThrows | App.js:19-21 | on a UI manager defining every method called, every call completes |
| Application.MissingUiMethodsThrow | App.js:19-21 | on the existing UI manager `init()` throws at `setButtonStates` after one status call, `stopAudio` likewise, and `setVisualization` at `updatePropertiesPanel` |
| Application.LoadAsWrittenNeverLoads | App.js:26-42 | on the existing UI manager a load stops the processor, throws in `stopAudio`, reports the error, throws again in `catch` and rejects; nothing is fetched |
| Application.LoadWithFullUi | App.js:26-42 | on a complete UI manager the load as written ends in the state, fetch and UI trace that `App.LoadPredefinedAudio` promises, and does not reject |

## Left out

- Browser I/O in the load: `fetch`, `Blob` and object URLs, the `Audio`
  element, `AudioContext.resume` and the graph wiring. Only their outcome is
  modelled, as a parameter.
- The 10 s load timeout and the 100 ms seek timer, as timers. The seek
  timer's effect is the separate method `SeekTimerFired`.
- The analyser's FFT. Its bytes are arbitrary inputs of the fixed length.
- `requestAnimationFrame` scheduling. `RenderStep` is a single frame.
- All canvas 2D drawing:
  - the spectrum bars and waveform line;
  - the particle discs and the line styling;
  - `clearCanvas`, `drawGrid` and `createGradient`;
  - the CSS formatting of `hslToCssString`.
- The base class's sine-wave `testData`. None of the modelled operations
  reads it, and `Math.sin` has no counterpart here.
- UIManager's DOM work and the export manager. They appear only as the
  recorded UI calls.
- `Math.sqrt` and IEEE-754 arithmetic. Positions are reals, distances are
  compared squared, and durations are exact reals.
- Dispatch.VisualizationEngine.constructor: takes a canvas object. Looking up
  a canvas by id, and the early return when none is found, are not modelled.
  In that case the program leaves its map undefined, so a later
  `setVisualization` would throw.
- BaseVisualization.AudioVisualization.UpdateProperty: takes the value as a
  real. The `parseFloat` of a string, which may give `NaN`, is not modelled.
- AudioProcessing.AudioProcessor.GetCurrentTime: the `|| 0` fallback is not
  modelled, because the stored position is never undefined or `NaN` here.
- AudioProcessing.AudioProcessor.Update: models only the `isPlaying` guard.
  The `this.analyser` guard is always true once the constructor has run.
- Application.App.LoadPredefinedAudio: the UI call for an error carries the
  error's kind, not its message text.
- Application.App: assumes a UI manager that defines `setButtonStates` and
  `updatePropertiesPanel`. The existing one does not; the code as written is
  modelled by `Issue` and `LoadAsWritten` (see Findings).
- Application.App.constructor: the UI manager's delayed `setupBasicUI` status
  call (UIManager.js:7-9, 19) is not in the trace, because it runs on a timer.
- Transport.Load: a load is one atomic step. Two loads that overlap, where the
  first one's handlers act on the second one's element, are not modelled.
  Metadata arriving after a timeout is shown only by the Transport lemmas on
  `LateMetadata`, not as a method of the processor class, because it can break
  the consistency invariant.
- Features.Level: rounds the exact rational mean. `Math.round` on the IEEE-754
  double can be one lower at exact halves. For example, 128 bytes totalling
  18768 give exactly 57.5 here, but the double quotient lies just below it.

## Findings

| source | as written | input that shows it | evidently intended | confidence | as-written member | corrected member |
|---|---|---|---|---|---|---|
| AudioVisualization.js:51-53 | while the processor plays, `update()` calls `getFrequencyData()` and `getWaveformData()`, which the audio processor does not define, so the call throws after counting the frame | a processor that has loaded a track and plays, passed to a subclass of the base visualisation, and one `update()` | copy the processor's `frequencyData` and `waveformData` into the visualisation's buffers | high; not executed | BaseVisualization.AudioVisualization.UpdateAsWritten, BaseVisualization.PlayingUpdateThrows | BaseVisualization.AudioVisualization.Update |
| App.js:20-21, 35, 40, 49, 54 | the application calls `setButtonStates` and `updatePropertiesPanel`, which the UI manager does not define, so each of those calls throws | `new App()`: `init()` throws at line 20 and the render loop never starts; a load stops the audio, throws at line 49, and its `catch` throws again at line 40 | a UI manager that defines both methods | high; not executed | Application.LoadAsWritten, Application.MissingUiMethodsThrow, Application.LoadAsWrittenNeverLoads | Application.App.constructor, Application.App.StopAudio, Application.App.SetVisualization, Application.App.LoadPredefinedAudio, Application.LoadWithFullUi |
