/**
  The oddio back end's part of the streaming layer: the precomputed
  exact-size frame buffer used for static sources, `Signal::sample` on the
  stereo stream, and `DspControl`, which reads and writes tagged parameters
  of the unit a stream owns.
*/
module OddioBackend {
  import opened Wrappers
  import opened Casts
  import opened FunDsp
  import opened DspData
  import opened DspSources

  /** A finite buffer of precomputed frames, drained from the front. */
  class ExactSizeIter {
    const sampleRate: real
    var collection: seq<Stereo>

    constructor (sampleRate: real, collection: seq<Stereo>)
      ensures this.sampleRate == sampleRate && this.collection == collection
    {
      this.sampleRate := sampleRate;
      this.collection := collection;
    }

    /** `ExactSizeIterator::len`: the frames not yet taken. */
    function Len(): (n: nat)
      reads this
      ensures n == |collection|
      ensures n == 0 <==> collection == []
    {
      |collection|
    }

    /** `Source::sample`: the next buffered frame, or silence once exhausted. */
    method Sample() returns (frame: Stereo)
      modifies this
      ensures old(Len()) == 0 ==> frame == ZERO && collection == old(collection)
      ensures old(Len()) > 0 ==> frame == old(collection)[0] && collection == old(collection)[1..]
    {
      if collection == [] {
        frame := ZERO;
      } else {
        frame := collection[0];
        collection := collection[1..];
      }
    }

    /** `Iterator::next`: `None` exactly when exhausted; each frame shortens `len` by one. */
    method Next() returns (r: Option<Stereo>)
      modifies this
      ensures r.None? <==> old(Len()) == 0
      ensures r.None? ==> collection == old(collection)
      ensures r.Some? ==> r.value == old(collection)[0] && collection == old(collection)[1..]
      ensures r.Some? ==> Len() == old(Len()) - 1
    {
      if collection == [] {
        r := None;
      } else {
        r := Some(collection[0]);
        collection := collection[1..];
      }
    }

    /** `Source::advance`: discard up to `(sample_rate * dt) as usize` buffered frames. */
    method Advance(dt: real)
      modifies this
      ensures var n := AsUsize(sampleRate * dt);
        collection == if n < |old(collection)| then old(collection)[n..] else []
    {
      var n := AsUsize(sampleRate * dt);
      for i := 0 to n
        invariant collection == if i < |old(collection)| then old(collection)[i..] else []
      {
        var discarded := Sample();
      }
    }
  }

  /**
    `into_exact_size_iter`: only a static source has a duration. The buffer
    holds the first `round(sample_rate * duration)` frames of a freshly
    generated unit, exactly what a stream over that source would produce first.
  */
  method IntoExactSizeIter(s: DspSource) returns (e: ExactSizeIter)
    requires s.sourceType.Static?
    ensures fresh(e) && e.sampleRate == s.sampleRate
    ensures e.Len() == RoundAsUsize(s.sampleRate * s.sourceType.duration)
    ensures e.collection == Frames(GenerateGraph(s.graph), e.Len())
  {
    var unit := GenerateGraph(s.graph);
    var numberOfFrames := RoundAsUsize(s.sampleRate * s.sourceType.duration);
    e := new ExactSizeIter(s.sampleRate, Frames(unit, numberOfFrames));
  }

  /**
    `Signal::sample` for the stereo stream: advance by `interval`, then fill
    every slot of `out`, in order, with the frames that follow.
  */
  method SignalSample(it: DspSourceIter, interval: real, out: array<Stereo>)
    modifies it, out
    ensures var skipped := AsUsize(it.sampleRate * interval);
      && out[..] == Frames(Ticks(old(it.unit), skipped), out.Length)
      && it.unit == Ticks(old(it.unit), skipped + out.Length)
  {
    it.Advance(interval);
    ghost var start := it.unit;
    for i := 0 to out.Length
      invariant it.unit == Ticks(start, i)
      invariant forall k :: 0 <= k < i ==> out[k] == StereoOut(Ticks(start, k))
    {
      var frame := it.Sample();
      out[i] := frame;
    }
  }

  /** A handle on the unit of one playing stream. */
  class DspControl {
    const stream: DspSourceIter

    constructor (stream: DspSourceIter)
      ensures this.stream == stream
    {
      this.stream := stream;
    }

    /** `DspControl::get`: the parameter's current value in the stream's unit. */
    function Get(t: Tag): (r: Option<real>)
      reads stream
      ensures r == FunDsp.Get(stream.unit, t)
    {
      FunDsp.Get(stream.unit, t)
    }

    /** `DspControl::set`: change the parameter in the stream's unit, in place. */
    method Set(t: Tag, v: real)
      modifies stream
      ensures stream.unit == FunDsp.Set(old(stream.unit), t, v)
      ensures Get(t) == if old(Get(t)).Some? then Some(v) else None
      ensures forall t' :: t' != t ==> Get(t') == old(Get(t'))
    {
      stream.unit := FunDsp.Set(stream.unit, t, v);
    }
  }

  /** `Controllable::control` for the stereo stream. */
  method Control(it: DspSourceIter) returns (c: DspControl)
    ensures fresh(c) && c.stream == it
  {
    c := new DspControl(it);
  }

  /** `Controllable::control` for the mono view: the unit of the wrapped stream. */
  method ControlMono(m: DspSourceIterMono) returns (c: DspControl)
    ensures fresh(c) && c.stream == m.inner
  {
    c := new DspControl(m.inner);
  }

  /** `Controlled::make_control` for the stereo stream. */
  method MakeControl(it: DspSourceIter) returns (c: DspControl)
    ensures fresh(c) && c.stream == it
  {
    c := new DspControl(it);
  }

  /**
    The `constant_controllable` scenario: a dynamic source over `tag(0, 440)`;
    three stereo frames, `set(0, 880)`, three more; then the mono view,
    three samples, `set(0, 440)`, three more.
  */
  method ConstantControllable(defaultSampleRate: real)
    returns (stereo: seq<Option<Stereo>>, mono: seq<Option<real>>)
    ensures stereo == [Some(Stereo(440.0, 440.0)), Some(Stereo(440.0, 440.0)), Some(Stereo(440.0, 440.0)),
                       Some(Stereo(880.0, 880.0)), Some(Stereo(880.0, 880.0)), Some(Stereo(880.0, 880.0))]
    ensures mono == [Some(880.0), Some(880.0), Some(880.0), Some(440.0), Some(440.0), Some(440.0)]
  {
    var freqId: Tag := 0;
    var sineWave := GraphFn(0, "constant_controllable::{{closure}}", TagNode(freqId, 440.0));
    var source := DspSources.New(sineWave, defaultSampleRate, Dynamic);

    var iter := IntoIter(source);
    var s1 := iter.Next();
    var s2 := iter.Next();
    var s3 := iter.Next();

    var control := Control(iter);
    control.Set(freqId, 880.0);

    var s4 := iter.Next();
    var s5 := iter.Next();
    var s6 := iter.Next();
    stereo := [s1, s2, s3, s4, s5, s6];

    var monoIter := iter.IntoMono();
    var m1 := monoIter.Next();
    var m2 := monoIter.Next();
    var m3 := monoIter.Next();

    var monoControl := ControlMono(monoIter);
    monoControl.Set(freqId, 440.0);

    var m4 := monoIter.Next();
    var m5 := monoIter.Next();
    var m6 := monoIter.Next();
    mono := [m1, m2, m3, m4, m5, m6];
  }
}
