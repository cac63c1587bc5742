/**
  The audio unit that a DSP graph function builds (fundsp's `AudioUnit32`),
  seen only through what the streaming layer uses: `get`/`set` of tagged
  parameters, and one stereo or mono frame per tick.

  A unit is either fundsp's `tag(id, value)` node, a stateless source whose
  single output is its own parameter, or an opaque unit: a tag-to-value map
  of live parameters, the parameter maps in force at each tick so far, and
  two deterministic output functions of that history.
*/
module FunDsp {
  import opened Wrappers

  /** fundsp's parameter tag. */
  type Tag = int

  /** Live parameters by tag. */
  type Params = map<Tag, real>

  /** A stereo frame, `[f32; 2]` and oddio's `Stereo` alike. */
  datatype Stereo = Stereo(left: real, right: real)

  /** oddio's `Stereo::ZERO`. */
  const ZERO: Stereo := Stereo(0.0, 0.0)

  datatype Unit =
    | TagNode(id: Tag, value: real)
    | Opaque(params: Params, past: seq<Params>,
             stereo: seq<Params> -> Stereo, mono: seq<Params> -> real)

  /** `n` copies of `x`. */
  function Repeat<T>(x: T, n: nat): (r: seq<T>)
    ensures |r| == n
    ensures forall i :: 0 <= i < n ==> r[i] == x
  {
    if n == 0 then [] else [x] + Repeat(x, n - 1)
  }

  /** `AudioUnit32::get`: the value of a tag the unit exposes, `None` for any other. */
  function Get(u: Unit, t: Tag): Option<real>
  {
    match u
    case TagNode(id, v) => if t == id then Some(v) else None
    case Opaque(p, _, _, _) => if t in p then Some(p[t]) else None
  }

  /** Two units that differ at most in their parameter values. */
  ghost predicate SameProcessing(u: Unit, w: Unit)
  {
    match u
    case TagNode(id, _) => w.TagNode? && w.id == id
    case Opaque(p, past, s, m) =>
      w.Opaque? && w.params.Keys == p.Keys && w.past == past && w.stereo == s && w.mono == m
  }

  /** `AudioUnit32::set`: a tag the unit exposes takes the new value; nothing else changes. */
  function Set(u: Unit, t: Tag, v: real): (r: Unit)
    ensures Get(r, t) == if Get(u, t).Some? then Some(v) else None
    ensures forall t' :: t' != t ==> Get(r, t') == Get(u, t')
    ensures SameProcessing(u, r)
  {
    match u
    case TagNode(id, _) => if t == id then TagNode(id, v) else u
    case Opaque(p, _, _, _) => if t in p then u.(params := p[t := v]) else u
  }

  /** The parameter history an opaque unit's outputs are computed from this tick. */
  function History(u: Unit): seq<Params>
    requires u.Opaque?
  {
    u.past + [u.params]
  }

  /** The stereo frame the unit produces on its next tick (`get_stereo`). */
  function StereoOut(u: Unit): Stereo
  {
    match u
    case TagNode(_, v) => Stereo(v, v)
    case Opaque(_, _, s, _) => s(History(u))
  }

  /** The mono sample the unit produces on its next tick (`get_mono`). */
  function MonoOut(u: Unit): real
  {
    match u
    case TagNode(_, v) => v
    case Opaque(_, _, _, m) => m(History(u))
  }

  /** The state after one tick. */
  function Tick(u: Unit): Unit
  {
    match u
    case TagNode(_, _) => u
    case Opaque(p, past, _, _) => u.(past := past + [p])
  }

  /** The state after `n` ticks with no parameter change in between. */
  function Ticks(u: Unit, n: nat): (r: Unit)
    ensures u.TagNode? ==> r == u
    ensures u.Opaque? ==> r == u.(past := u.past + Repeat(u.params, n))
    decreases n
  {
    if n == 0 then u else Ticks(Tick(u), n - 1)
  }

  /** The first `n` stereo frames the unit produces. */
  function Frames(u: Unit, n: nat): (r: seq<Stereo>)
    ensures |r| == n
    ensures forall k :: 0 <= k < n ==> r[k] == StereoOut(Ticks(u, k))
    decreases n
  {
    if n == 0 then [] else [StereoOut(u)] + Frames(Tick(u), n - 1)
  }

  /** The first `n` mono samples the unit produces. */
  function MonoFrames(u: Unit, n: nat): (r: seq<real>)
    ensures |r| == n
    ensures forall k :: 0 <= k < n ==> r[k] == MonoOut(Ticks(u, k))
    decreases n
  {
    if n == 0 then [] else [MonoOut(u)] + MonoFrames(Tick(u), n - 1)
  }

  /** Ticking `a` times and then `b` times is ticking `a + b` times. */
  lemma TicksAdd(u: Unit, a: nat, b: nat)
    ensures Ticks(Ticks(u, a), b) == Ticks(u, a + b)
  {
  }

  /** Setting a parameter takes effect from the very next frame, and no tick happens. */
  lemma TagSetIsAudible(id: Tag, v: real, w: real)
    ensures Set(TagNode(id, v), id, w) == TagNode(id, w)
    ensures StereoOut(Set(TagNode(id, v), id, w)) == Stereo(w, w)
    ensures MonoOut(Set(TagNode(id, v), id, w)) == w
  {
  }

  /** A `tag(id, v)` unit is a constant signal: every frame is `[v, v]`, every mono sample `v`. */
  lemma ConstantTagFrames(id: Tag, v: real, n: nat)
    ensures Frames(TagNode(id, v), n) == Repeat(Stereo(v, v), n)
    ensures MonoFrames(TagNode(id, v), n) == Repeat(v, n)
  {
  }
}
