/**
 * The dispatcher: a map from key to visualisation built once per processor,
 * a pointer to the active one, per-frame dispatch to that one only and a
 * resize broadcast to every registered one. A ghost trace records the calls
 * the engine makes on its visualisations and on the drawing surface.
 */
module Dispatch {
  import opened Basics
  import AudioProcessing
  import SimpleVisualizations
  import ParticleSimulation

  /** A registered visualisation instance. */
  datatype Visualization =
    | Spectrum(s: SimpleVisualizations.SpectrumVisualization)
    | Waveform(w: SimpleVisualizations.WaveformVisualization)
    | Particles(p: ParticleSimulation.ParticleVisualization)
  {
    function Canvas(): Canvas {
      match this
      case Spectrum(s) => s.canvas
      case Waveform(w) => w.canvas
      case Particles(p) => p.canvas
    }

    function Processor(): AudioProcessing.AudioProcessor {
      match this
      case Spectrum(s) => s.processor
      case Waveform(w) => w.processor
      case Particles(p) => p.processor
    }
  }

  datatype Op = UpdateOp | DrawOp | ResizeOp(width: nat, height: nat)

  /** One call the engine makes: on a visualisation, or clearing the surface. */
  datatype Call = Invoked(target: Visualization, op: Op) | ClearedSurface

  /** The keys in registration order, which is the order `Map.forEach` visits them. */
  const Keys: seq<string> := ["spectrum", "waveform", "particles"]

  /** The kind of visualisation each key holds. */
  predicate KindMatches(key: string, v: Visualization) {
    && (key == "spectrum" ==> v.Spectrum?)
    && (key == "waveform" ==> v.Waveform?)
    && (key == "particles" ==> v.Particles?)
  }

  /** The resize calls of the broadcast over `keys`, in visiting order. */
  function ResizeCalls(m: map<string, Visualization>, keys: seq<string>, width: nat, height: nat): (calls: seq<Call>)
    ensures |calls| <= |keys|
    ensures forall c :: c in calls ==> c.Invoked? && c.op == ResizeOp(width, height)
  {
    if keys == [] then []
    else
      var last := keys[|keys| - 1];
      ResizeCalls(m, keys[..|keys| - 1], width, height)
        + (if last in m then [Invoked(m[last], ResizeOp(width, height))] else [])
  }

  /** The broadcast reaches every registered instance whose key is visited, not only the active one. */
  lemma {:induction false} ResizeReachesEvery(m: map<string, Visualization>, keys: seq<string>, width: nat, height: nat)
    ensures forall k :: k in keys && k in m ==> Invoked(m[k], ResizeOp(width, height)) in ResizeCalls(m, keys, width, height)
  {
    if keys != [] {
      var init := keys[..|keys| - 1];
      ResizeReachesEvery(m, init, width, height);
      forall k | k in keys && k in m
        ensures Invoked(m[k], ResizeOp(width, height)) in ResizeCalls(m, keys, width, height)
      {
        if k != keys[|keys| - 1] {
          assert k in init by {
            var n :| 0 <= n < |keys| && keys[n] == k;
            assert init[n] == k;
          }
        }
      }
    }
  }

  class VisualizationEngine {
    const canvas: Canvas
    var processor: AudioProcessing.AudioProcessor?
    var visualizations: map<string, Visualization>
    var current: Option<Visualization>
    ghost var calls: seq<Call>

    /**
     * The map is empty (no processor yet) or holds exactly the three keys,
     * each with its kind, all drawing on the engine's canvas. The active
     * visualisation may be an instance of an earlier processor: a second
     * `initVisualizations` replaces the map but not the pointer.
     */
    ghost predicate Valid()
      reads this
    {
      && (visualizations == map[] || visualizations.Keys == {"spectrum", "waveform", "particles"})
      && (forall k :: k in visualizations ==> KindMatches(k, visualizations[k]))
      && (forall k :: k in visualizations ==> visualizations[k].Canvas() == canvas)
      && ("particles" in visualizations ==> visualizations["particles"].p.Valid())
      && (current.Some? && current.value.Particles? ==> current.value.p.Valid())
    }

    /** The particle array that a frame of the active visualisation may change. */
    function DrawFootprint(): set<object>
      reads this
    {
      if current.Some? && current.value.Particles? then {current.value.p.particles} else {}
    }

    /** The particle array that a resize may change. */
    function ResizeFootprint(): set<object>
      reads this
    {
      if "particles" in visualizations && visualizations["particles"].Particles?
      then {visualizations["particles"].p.particles} else {}
    }

    constructor (canvas: Canvas)
      ensures Valid() && this.canvas == canvas
      ensures processor == null && visualizations == map[] && current == None && calls == []
    {
      this.canvas := canvas;
      processor := null;
      visualizations := map[];
      current := None;
      calls := [];
    }

    /** `setAudioProcessor`: keep the processor, build the instances, make the spectrum active. */
    method SetAudioProcessor(processor: AudioProcessing.AudioProcessor?, spawnDraws: seq<real>)
      requires Valid()
      requires processor != null ==> processor.Buffers()
      requires |spawnDraws| == ParticleSimulation.SpawnDraws * ParticleSimulation.ParticleCount
      requires AllUnitDraws(spawnDraws)
      modifies this`processor, this`visualizations, this`current
      ensures Valid() && this.processor == processor
      ensures processor != null ==>
        && visualizations.Keys == {"spectrum", "waveform", "particles"}
        && current == Some(visualizations["spectrum"])
        && forall k :: k in visualizations ==> visualizations[k].Processor() == processor
      ensures processor == null ==>
        && visualizations == old(visualizations)
        && current == (if "spectrum" in visualizations then Some(visualizations["spectrum"]) else old(current))
    {
      this.processor := processor;
      InitVisualizations(spawnDraws);
      var _ := SetVisualization("spectrum");
    }

    /** `initVisualizations`: with a processor, one fresh instance per key; without one, nothing. */
    method InitVisualizations(spawnDraws: seq<real>)
      requires Valid()
      requires processor != null ==> processor.Buffers()
      requires |spawnDraws| == ParticleSimulation.SpawnDraws * ParticleSimulation.ParticleCount
      requires AllUnitDraws(spawnDraws)
      modifies this`visualizations
      ensures Valid()
      ensures processor == null ==> visualizations == old(visualizations)
      ensures processor != null ==>
        && visualizations.Keys == {"spectrum", "waveform", "particles"}
        && visualizations["spectrum"].Spectrum? && fresh(visualizations["spectrum"].s)
        && visualizations["spectrum"].s.processor == processor
        && visualizations["waveform"].Waveform? && fresh(visualizations["waveform"].w)
        && visualizations["waveform"].w.processor == processor
        && visualizations["particles"].Particles? && fresh(visualizations["particles"].p)
        && visualizations["particles"].p.processor == processor
        && fresh(visualizations["particles"].p.particles)
    {
      if processor == null {
        return;
      }
      var spectrum := new SimpleVisualizations.SpectrumVisualization(canvas, processor);
      var waveform := new SimpleVisualizations.WaveformVisualization(canvas, processor);
      var particles := new ParticleSimulation.ParticleVisualization(canvas, processor, spawnDraws);
      visualizations := visualizations["spectrum" := Spectrum(spectrum)];
      visualizations := visualizations["waveform" := Waveform(waveform)];
      visualizations := visualizations["particles" := Particles(particles)];
    }

    /** `setVisualization(type)`: switch the pointer to a registered instance; the map is never touched. */
    method SetVisualization(key: string) returns (ok: bool)
      requires Valid()
      modifies this`current
      ensures Valid()
      ensures ok <==> key in visualizations
      ensures ok ==> current == Some(visualizations[key])
      ensures !ok ==> current == old(current)
    {
      if key in visualizations {
        current := Some(visualizations[key]);
        return true;
      }
      return false;
    }

    /**
     * `draw()`: `update` then `draw` on the active visualisation only. For
     * the particles, `update` moves every particle and `draw` computes the
     * connecting lines; the other two have an empty `update` and only paint.
     */
    method Draw(jitter: seq<real>)
      requires Valid()
      requires |jitter| == ParticleSimulation.JitterDraws * ParticleSimulation.ParticleCount
      requires AllUnitDraws(jitter)
      modifies this`calls, DrawFootprint()
      ensures Valid()
      ensures calls == old(calls) +
        (if current.None? then [] else [Invoked(current.value, UpdateOp), Invoked(current.value, DrawOp)])
      ensures current.Some? && current.value.Particles? ==>
        var p := current.value.p;
        forall k :: 0 <= k < ParticleSimulation.ParticleCount ==>
          p.particles[k] == ParticleSimulation.Step(old(p.particles[k]), k, ParticleSimulation.ParticleCount,
            p.processor.frequencyData[..], p.canvas.width, p.canvas.height, jitter[2 * k], jitter[2 * k + 1])
    {
      match current {
        case None =>
        case Some(v) =>
          if v.Particles? {
            v.p.Update(jitter);
            var _ := v.p.DrawConnections();
          }
          calls := calls + [Invoked(v, UpdateOp), Invoked(v, DrawOp)];
      }
    }

    /** `clearCanvas()`: paint the background; no visualisation is invoked. */
    method ClearCanvas()
      modifies this`calls
      ensures calls == old(calls) + [ClearedSurface]
    {
      calls := calls + [ClearedSurface];
    }

    /** `resize(width, height)`: size the canvas, then forward to every registered visualisation in key order. */
    method Resize(width: nat, height: nat, placement: seq<real>)
      requires Valid()
      requires |placement| == ParticleSimulation.PlacementDraws * ParticleSimulation.ParticleCount
      requires AllUnitDraws(placement)
      modifies this`calls, canvas, ResizeFootprint()
      ensures Valid()
      ensures canvas.width == width && canvas.height == height
      ensures calls == old(calls) + ResizeCalls(visualizations, Keys, width, height)
      ensures "particles" in visualizations ==>
        var p := visualizations["particles"].p;
        forall k :: 0 <= k < ParticleSimulation.ParticleCount ==>
          p.particles[k] == ParticleSimulation.Place(old(p.particles[k]), placement[2 * k], placement[2 * k + 1], width, height)
    {
      canvas.width := width;
      canvas.height := height;
      var i := 0;
      while i < |Keys|
        invariant 0 <= i <= |Keys|
        invariant canvas.width == width && canvas.height == height
        invariant calls == old(calls) + ResizeCalls(visualizations, Keys[..i], width, height)
        invariant "particles" in visualizations && i < 3 ==>
          var p := visualizations["particles"].p;
          forall k :: 0 <= k < ParticleSimulation.ParticleCount ==> p.particles[k] == old(p.particles[k])
        invariant "particles" in visualizations && i == 3 ==>
          var p := visualizations["particles"].p;
          forall k :: 0 <= k < ParticleSimulation.ParticleCount ==>
            p.particles[k] == ParticleSimulation.Place(old(p.particles[k]), placement[2 * k], placement[2 * k + 1], width, height)
      {
        var key := Keys[i];
        assert Keys[..i + 1][..i] == Keys[..i];
        if key in visualizations {
          var v := visualizations[key];
          match v {
            case Spectrum(s) => s.Resize(width, height);
            case Waveform(w) => w.Resize(width, height);
            case Particles(p) => p.Resize(width, height, placement);
          }
          calls := calls + [Invoked(v, ResizeOp(width, height))];
        }
        i := i + 1;
      }
      assert Keys[..|Keys|] == Keys;
    }
  }
}
