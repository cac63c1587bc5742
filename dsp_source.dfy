/**
  `DspSource` (a graph function stamped with a sample rate and a source
  type) and the two infinite frame streams that pull from one unit built
  from it: the stereo `DspSourceIter` and its mono view `DspSourceIterMono`.
*/
module DspSources {
  import opened Wrappers
  import opened Casts
  import opened FunDsp
  import opened DspData

  /** Finite playback of a given duration in seconds, or an endless stream. */
  datatype SourceType = Static(duration: real) | Dynamic

  datatype DspSource = DspSource(graph: GraphFn, sampleRate: real, sourceType: SourceType)

  /** `DspSource::new`. */
  function New(g: GraphFn, sampleRate: real, sourceType: SourceType): (s: DspSource)
    ensures s.graph == g && s.sampleRate == sampleRate && s.sourceType == sourceType
  {
    DspSource(g, sampleRate, sourceType)
  }

  /** The provided method `DspGraph::into_dsp_source`, which defers to `DspSource::new`. */
  function IntoDspSource(g: GraphFn, sampleRate: real, sourceType: SourceType): (s: DspSource)
    ensures s.graph == g && s.sampleRate == sampleRate && s.sourceType == sourceType
  {
    New(g, sampleRate, sourceType)
  }

  /**
    What `to_bytes` hands to `Wave32::render`: the sample rate, the duration
    and a freshly generated unit. Rendering and WAV encoding are not modelled.
  */
  datatype RenderJob = RenderJob(sampleRate: real, duration: real, node: Unit)

  /** `DspSource::to_bytes`: only a static source has a duration to render. */
  function ToBytes(s: DspSource): (job: RenderJob)
    requires s.sourceType.Static?
    ensures job.sampleRate == s.sampleRate && job.duration == s.sourceType.duration
    ensures job.node == GenerateGraph(s.graph)
  {
    RenderJob(s.sampleRate, s.sourceType.duration, GenerateGraph(s.graph))
  }

  /** `IntoIterator for DspSource`: a stream over a unit of its own. */
  method IntoIter(s: DspSource) returns (it: DspSourceIter)
    ensures fresh(it)
    ensures it.sampleRate == s.sampleRate && it.unit == GenerateGraph(s.graph)
  {
    it := new DspSourceIter(s.sampleRate, GenerateGraph(s.graph));
  }

  /** An endless stream of stereo frames from one owned unit. */
  class DspSourceIter {
    const sampleRate: real
    var unit: Unit

    constructor (sampleRate: real, unit: Unit)
      ensures this.sampleRate == sampleRate && this.unit == unit
    {
      this.sampleRate := sampleRate;
      this.unit := unit;
    }

    /** `Source::sample`: one tick, one stereo frame. */
    method Sample() returns (frame: Stereo)
      modifies this
      ensures frame == StereoOut(old(unit)) && unit == Tick(old(unit))
    {
      frame := StereoOut(unit);
      unit := Tick(unit);
    }

    /** `Iterator::next`: never the end of the stream. */
    method Next() returns (r: Option<Stereo>)
      modifies this
      ensures r == Some(StereoOut(old(unit))) && unit == Tick(old(unit))
    {
      var frame := Sample();
      r := Some(frame);
    }

    /** `Source::advance`: discard `(sample_rate * dt) as usize` frames. */
    method Advance(dt: real)
      modifies this
      ensures unit == Ticks(old(unit), AsUsize(sampleRate * dt))
    {
      var n := AsUsize(sampleRate * dt);
      for i := 0 to n
        invariant unit == Ticks(old(unit), i)
      {
        var discarded := Sample();
      }
    }

    /** `into_mono`: the same unit and sample rate, read through `get_mono`. */
    method IntoMono() returns (m: DspSourceIterMono)
      ensures fresh(m) && m.inner == this
    {
      m := new DspSourceIterMono(this);
    }
  }

  /** The mono view of a stereo stream. */
  class DspSourceIterMono {
    const inner: DspSourceIter

    constructor (inner: DspSourceIter)
      ensures this.inner == inner
    {
      this.inner := inner;
    }

    /** `Source::sample_rate`: that of the wrapped stream. */
    function SampleRate(): real
    {
      inner.sampleRate
    }

    /** `Source::sample`: one tick, one mono sample. */
    method Sample() returns (sample: real)
      modifies inner
      ensures sample == MonoOut(old(inner.unit)) && inner.unit == Tick(old(inner.unit))
    {
      sample := MonoOut(inner.unit);
      inner.unit := Tick(inner.unit);
    }

    /** `Iterator::next`: never the end of the stream. */
    method Next() returns (r: Option<real>)
      modifies inner
      ensures r == Some(MonoOut(old(inner.unit))) && inner.unit == Tick(old(inner.unit))
    {
      var sample := Sample();
      r := Some(sample);
    }

    /** `Source::advance`, here discarding mono samples. */
    method Advance(dt: real)
      modifies inner
      ensures inner.unit == Ticks(old(inner.unit), AsUsize(SampleRate() * dt))
    {
      var n := AsUsize(SampleRate() * dt);
      for i := 0 to n
        invariant inner.unit == Ticks(old(inner.unit), i)
      {
        var discarded := Sample();
      }
    }
  }

  /**
    Pulling `n` frames after an `advance` that skips `k` frames gives frames
    `k` to `k + n - 1` of the stream: skipping is consuming.
  */
  lemma {:induction false} AdvanceThenFrames(u: Unit, k: nat, n: nat)
    ensures Frames(Ticks(u, k), n) == Frames(u, k + n)[k..]
  {
    var lhs, rhs := Frames(Ticks(u, k), n), Frames(u, k + n)[k..];
    forall i | 0 <= i < n
      ensures lhs[i] == rhs[i]
    {
      TicksAdd(u, k, i);
    }
  }
}
