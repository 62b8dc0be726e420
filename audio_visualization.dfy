/**
 * The shared base of the visualisations: abstract-class guard, frame
 * counter, idle buffers, the tunable property table, normalisation and
 * level-driven colour. No visualisation of the program extends it.
 */
module BaseVisualization {
  import opened Basics
  import opened Features
  import AudioProcessing
  import Transport

  /** A tunable knob. */
  datatype Property = Property(value: real, min: real, max: real, step: real)

  datatype Colors = Colors(primary: string, secondary: string, background: string, useGradient: bool, colorByLevel: bool)

  /** A colour before it is formatted as a CSS string. */
  datatype Color = Css(text: string) | Hsl(hue: real, saturation: real, lightness: real)

  datatype ColorPair = ColorPair(primary: Color, secondary: Color)

  /** How the constructor is reached: `new AudioVisualization(...)` itself, or through a subclass. */
  datatype Construction = DirectBase | ViaSubclass

  datatype VisualizationError = AbstractClass | MissingProcessorMethod

  const SensitivityName := "audioSensitivity"

  const DefaultProperties: map<string, Property> := map[SensitivityName := Property(1.0, 0.1, 2.0, 0.1)]

  const DefaultColors := Colors("#4cc9f0", "#f72585", "#121226", false, false)

  /** Buffer size without a processor. */
  const StandaloneBufferSize: nat := 256

  const HueStart: real := 100.0
  const HueEnd: real := 90.0

  /** Hue of `getDynamicColor`: linear from `HueStart` at level 0 to `HueEnd` at level 100. */
  function LevelHue(audioLevel: real): (hue: real)
    ensures 0.0 <= audioLevel <= 100.0 ==> HueEnd <= hue <= HueStart
    ensures audioLevel == 0.0 ==> hue == HueStart
    ensures audioLevel == 100.0 ==> hue == HueEnd
  {
    HueStart + (HueEnd - HueStart) * (audioLevel / 100.0)
  }

  /** A louder level never gives a larger hue. */
  lemma HueDecreasesWithLevel(a: real, b: real)
    requires a <= b
    ensures LevelHue(b) <= LevelHue(a)
  {
    assert LevelHue(a) - LevelHue(b) == (b - a) / 10.0;
  }

  /** `normalizeData`: each byte divided by 255. */
  method NormalizeData(data: seq<Byte>) returns (normalized: seq<real>)
    ensures |normalized| == |data|
    ensures forall k :: 0 <= k < |data| ==> normalized[k] == (data[k] as real) / 255.0
    ensures forall k :: 0 <= k < |data| ==> 0.0 <= normalized[k] <= 1.0
  {
    if |data| == 0 {
      return [];
    }
    var out := new real[|data|];
    var i := 0;
    while i < |data|
      invariant 0 <= i <= |data|
      invariant forall k :: 0 <= k < i ==> out[k] == (data[k] as real) / 255.0
    {
      out[i] := (data[i] as real) / 255.0;
      i := i + 1;
    }
    normalized := out[..];
  }

  class AudioVisualization {
    const canvas: Canvas
    const processor: AudioProcessing.AudioProcessor?
    var name: string
    var properties: map<string, Property>
    var colors: Colors
    var frameCount: nat
    const frequencyState: array<Byte>
    const waveformState: array<Byte>

    /** Both state buffers have the size the constructor chose, and the sensitivity knob exists. */
    ghost predicate Valid()
      reads this
    {
      && frequencyState.Length == BufferSize(processor)
      && waveformState.Length == BufferSize(processor)
      && frequencyState != waveformState
      && SensitivityName in properties
      && (processor != null ==>
            processor.Buffers() &&
            {frequencyState, waveformState} !! {processor.frequencyData, processor.waveformData})
    }

    /**
     * `analyser.frequencyBinCount` with a processor, 256 without: with a
     * processor the visualisation's buffers are exactly as long as the
     * processor's, so copying them in fits.
     */
    static function BufferSize(p: AudioProcessing.AudioProcessor?): (n: nat)
      ensures p != null && p.Buffers() ==> n == p.frequencyData.Length && n == p.waveformData.Length
      ensures p == null ==> n == StandaloneBufferSize
    {
      if p != null then BinCount else StandaloneBufferSize
    }

    /** The constructor as reached through a subclass; the direct path is refused by `Instantiate`. */
    constructor (canvas: Canvas, processor: AudioProcessing.AudioProcessor?)
      requires processor != null ==> processor.Buffers()
      ensures Valid() && this.canvas == canvas && this.processor == processor
      ensures properties == DefaultProperties && colors == DefaultColors && frameCount == 0
      ensures fresh(frequencyState) && fresh(waveformState)
      ensures forall k :: 0 <= k < frequencyState.Length ==> frequencyState[k] == 0 && waveformState[k] == 0
    {
      this.canvas := canvas;
      this.processor := processor;
      name := "Visualização";
      properties := DefaultProperties;
      colors := DefaultColors;
      frameCount := 0;
      var size := if processor != null then BinCount else StandaloneBufferSize;
      frequencyState := new Byte[size](_ => 0);
      waveformState := new Byte[size](_ => 0);
    }

    /** The abstract-class guard: constructing the base class itself throws. */
    static method Instantiate(how: Construction, canvas: Canvas, processor: AudioProcessing.AudioProcessor?)
      returns (r: Result<AudioVisualization, VisualizationError>)
      requires processor != null ==> processor.Buffers()
      ensures how == DirectBase <==> r.Err?
      ensures r.Err? ==> r.error == AbstractClass
      ensures r.Ok? ==>
        && fresh(r.value) && r.value.Valid() && r.value.properties == DefaultProperties
        && r.value.frameCount == 0 && r.value.processor == processor
    {
      if how == DirectBase {
        return Err(AbstractClass);
      }
      var v := new AudioVisualization(canvas, processor);
      r := Ok(v);
    }

    /**
     * `update()` as the program has it: the playing branch calls
     * `getFrequencyData()` and `getWaveformData()`, which the audio
     * processor does not define, so it throws after counting the frame.
     */
    method UpdateAsWritten() returns (r: Result<(), VisualizationError>)
      requires Valid()
      modifies this`frameCount, frequencyState, waveformState
      ensures frameCount == old(frameCount) + 1
      ensures processor != null && processor.isPlaying ==>
        r == Err(MissingProcessorMethod) && unchanged(frequencyState, waveformState)
      ensures !(processor != null && processor.isPlaying) ==>
        r == Ok(()) &&
        forall k :: 0 <= k < frequencyState.Length ==> frequencyState[k] == 0 && waveformState[k] == Centre
    {
      frameCount := frameCount + 1;
      if processor != null && processor.isPlaying {
        return Err(MissingProcessorMethod);
      }
      Fill(frequencyState, 0);
      Fill(waveformState, Centre);
      r := Ok(());
    }

    /** `update()` as intended: count the frame, then take the processor's buffers or reset to silence. */
    method Update()
      requires Valid()
      modifies this`frameCount, frequencyState, waveformState
      ensures frameCount == old(frameCount) + 1
      ensures processor != null && processor.isPlaying ==>
        frequencyState[..] == processor.frequencyData[..] && waveformState[..] == processor.waveformData[..]
      ensures !(processor != null && processor.isPlaying) ==>
        forall k :: 0 <= k < frequencyState.Length ==> frequencyState[k] == 0 && waveformState[k] == Centre
    {
      frameCount := frameCount + 1;
      if processor != null && processor.isPlaying {
        CopyInto(frequencyState, processor.frequencyData[..]);
        CopyInto(waveformState, processor.waveformData[..]);
      } else {
        Fill(frequencyState, 0);
        Fill(waveformState, Centre);
      }
    }

    method Resize(width: nat, height: nat)
      modifies canvas
      ensures canvas.width == width && canvas.height == height
    {
      canvas.width := width;
      canvas.height := height;
    }

    /** `getProperties()`: a copy of the table; being a value, later updates on either side do not reach the other. */
    method GetProperties() returns (snapshot: map<string, Property>)
      ensures snapshot == properties
    {
      snapshot := properties;
    }

    /**
     * The getter and setter together: a snapshot taken before an update keeps
     * the old table, and one taken after it shows the new value under the
     * name, its bounds and step kept, and every other entry as it was.
     */
    method PropertiesRoundTrip(property: string, value: real)
      returns (before: map<string, Property>, ok: bool, after: map<string, Property>)
      modifies this`properties
      ensures before == old(properties) && after == properties
      ensures ok <==> property in before
      ensures after.Keys == before.Keys
      ensures ok ==> after[property] == before[property].(value := value)
      ensures forall other :: other in before && other != property ==> after[other] == before[other]
      ensures !ok ==> after == before
    {
      before := GetProperties();
      ok := UpdateProperty(property, value);
      after := GetProperties();
    }

    /** `updateProperty(name, value)`: only a known name's `value` changes, with no range check. */
    method UpdateProperty(property: string, value: real) returns (ok: bool)
      modifies this`properties
      ensures ok <==> property in old(properties)
      ensures ok ==> properties == old(properties)[property := old(properties)[property].(value := value)]
      ensures !ok ==> properties == old(properties)
      ensures properties.Keys == old(properties).Keys
    {
      if property in properties {
        properties := properties[property := properties[property].(value := value)];
        return true;
      }
      return false;
    }

    /** `getSensitiveData(data)`: normalised bytes scaled by the sensitivity and capped at 1. */
    method GetSensitiveData(data: seq<Byte>) returns (scaled: seq<real>)
      requires SensitivityName in properties
      ensures |scaled| == |data|
      ensures forall k :: 0 <= k < |data| ==>
        scaled[k] == Min(1.0, (data[k] as real) / 255.0 * properties[SensitivityName].value)
      ensures forall k :: 0 <= k < |data| ==> scaled[k] <= 1.0
      ensures properties[SensitivityName].value >= 0.0 ==> forall k :: 0 <= k < |data| ==> 0.0 <= scaled[k]
    {
      var normalized := NormalizeData(data);
      var sensitivity := properties[SensitivityName].value;
      scaled := normalized;
      var i := 0;
      while i < |scaled|
        invariant |scaled| == |data|
        invariant 0 <= i <= |scaled|
        invariant forall k :: 0 <= k < i ==> scaled[k] == Min(1.0, normalized[k] * sensitivity)
        invariant forall k :: i <= k < |scaled| ==> scaled[k] == normalized[k]
      {
        scaled := scaled[i := Min(1.0, scaled[i] * sensitivity)];
        i := i + 1;
      }
      forall k | 0 <= k < |data| && sensitivity >= 0.0
        ensures 0.0 <= scaled[k]
      {
        ProductNonNegative(normalized[k], sensitivity);
      }
    }

    /** `getDynamicColor(level)`: the stored colours, or a level-driven hue for the primary. */
    function GetDynamicColor(audioLevel: real): (c: ColorPair)
      reads this
      ensures c.secondary == Css(colors.secondary)
      ensures !colors.colorByLevel ==> c.primary == Css(colors.primary)
      ensures colors.colorByLevel ==>
        c.primary.Hsl? && c.primary.saturation == 90.0 && c.primary.lightness == 60.0 &&
        c.primary.hue == LevelHue(audioLevel)
      ensures colors.colorByLevel && 0.0 <= audioLevel <= 100.0 ==> 90.0 <= c.primary.hue <= 100.0
    {
      if !colors.colorByLevel then ColorPair(Css(colors.primary), Css(colors.secondary))
      else ColorPair(Hsl(LevelHue(audioLevel), 90.0, 60.0), Css(colors.secondary))
    }
  }

  /** A playing processor makes the program's `update()` throw. */
  method PlayingUpdateThrows() returns (r: Result<(), VisualizationError>)
    ensures r == Err(MissingProcessorMethod)
  {
    var processor := new AudioProcessing.AudioProcessor();
    var _ := processor.LoadPredefinedAudio("audio/track.mp3", Transport.MetadataLoaded(120.0, true));
    var _ := processor.Play(true);
    var canvas := new Canvas(800, 400);
    var v := new AudioVisualization(canvas, processor);
    r := v.UpdateAsWritten();
  }
}
