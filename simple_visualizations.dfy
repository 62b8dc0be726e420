/**
 * The spectrum and waveform visualisations. Their drawing is pixel work on
 * the canvas; what the dispatcher relies on is that they share the canvas
 * and the processor, that `update()` does nothing and that `resize` sets
 * the canvas size.
 */
module SimpleVisualizations {
  import opened Basics
  import AudioProcessing

  class SpectrumVisualization {
    const canvas: Canvas
    const processor: AudioProcessing.AudioProcessor
    const name: string

    constructor (canvas: Canvas, processor: AudioProcessing.AudioProcessor)
      ensures this.canvas == canvas && this.processor == processor
      ensures name == "Espectro de Frequências"
    {
      this.canvas := canvas;
      this.processor := processor;
      name := "Espectro de Frequências";
    }

    method Resize(width: nat, height: nat)
      modifies canvas
      ensures canvas.width == width && canvas.height == height
    {
      canvas.width := width;
      canvas.height := height;
    }
  }

  class WaveformVisualization {
    const canvas: Canvas
    const processor: AudioProcessing.AudioProcessor
    const name: string

    constructor (canvas: Canvas, processor: AudioProcessing.AudioProcessor)
      ensures this.canvas == canvas && this.processor == processor
      ensures name == "Forma de Onda"
    {
      this.canvas := canvas;
      this.processor := processor;
      name := "Forma de Onda";
    }

    method Resize(width: nat, height: nat)
      modifies canvas
      ensures canvas.width == width && canvas.height == height
    {
      canvas.width := width;
      canvas.height := height;
    }
  }
}
