# bevy_fundsp registry and playback layer, in Dafny

This project models the layer of bevy_fundsp that sits between user DSP
graph functions and the audio back ends:

- the graph registries: the current `DspManager`, which stamps each graph
  function with the manager's sample rate and keys the resulting
  `DspSource` by the graph's UUID, and the earlier `DspManager`/`DspAssets`
  API, which keys graph functions by `TypeId` and turns every registered
  graph into an asset handle;
- the source mode gate: only a `Static { duration }` source may be turned
  into bytes or into an exact-size frame buffer (`Dynamic` panics, modelled
  as a precondition);
- the frame streams: the endless stereo stream `DspSourceIter`, its mono
  view, `advance` (which discards `(sample_rate * dt) as usize` frames), the
  precomputed `ExactSizeIter` and oddio's `Signal::sample`;
- live parameter control through `DspControl::get`/`set`, and the
  `constant_controllable` test scenario.

The audio unit a graph function builds (fundsp's `AudioUnit32`) is abstract
(module `FunDsp`): either fundsp's `tag(id, value)` node, or an opaque unit
holding a tag-to-value map and the parameter maps in force at each past
tick, whose stereo and mono outputs are arbitrary deterministic functions of
that history. `set` changes a tag the unit exposes and nothing else; a tick
does not change parameters.

Sample rates, durations and parameter values are `real`. The float-to-count
conversions are written out in module `Casts`: `AsUsize` is Rust's
saturating `as usize` (truncation, negatives to 0), `RoundAsUsize` is
`round()` (half away from zero) followed by that cast.

Files: `wrappers.dfy` (Option), `casts.dfy`, `fundsp.dfy` (audio unit),
`dsp_data.dfy` (src/dsp_data.rs), `dsp_source.dfy` (src/dsp_source.rs, plus
the trait's provided `into_dsp_source`, kept here so that the two modules do
not import each other), `dsp_manager.dfy` (src/dsp_manager.rs), `lib.dfy`
(src/lib.rs), `oddio.dfy` (src/backend/oddio.rs). Methods on Rust types
implemented in another file (`Signal for Iter`, `Controllable`) are
top-level methods of the module for that file, taking the stream as a
parameter.

`advance` truncates the frame count (`Casts.RoundIsTruncOrNext` bounds the
difference from rounding at one frame); parameter updates go directly into
the stream's unit through `DspControl::set`, with no queue in between.

## Model

| member | source | states |
|---|---|---|
| `Casts.AsUsize` | src/dsp_source.rs:99 | `x as usize`: 0 for non-positive input, otherwise the integer part (the unique `n` with `n <= x < n + 1`), saturating at `usize::MAX` |
| `Casts.RoundAsUsize` | src/backend/oddio.rs:63 | `x.round() as usize`: 0 for non-positive input, otherwise the unique `n` with `x - 1/2 < n <= x + 1/2` (halves round up), saturating at `usize::MAX` |
| `Casts.RoundIsTruncOrNext` | src/dsp_source.rs:98-102 | rounding the frame count instead of truncating it would skip at most one more frame, never fewer |
| `FunDsp.Set` | src/backend/oddio.rs:196-198 | setting tag `t` to `v`: `get(t)` then yields `v` if the unit exposes `t` (and still `None` if not); every other tag reads as before; the unit's processing state and tag set are unchanged |
| `FunDsp.Ticks` | src/dsp_source.rs:98-102 | `n` ticks leave a tag node as it is and append `n` copies of the current parameters to an opaque unit's history; parameters do not change |
| `FunDsp.Frames` | src/backend/oddio.rs:65-68 | the first `n` stereo frames of a unit: exactly `n` of them, frame `k` being what the unit outputs after `k` ticks |
| `FunDsp.MonoFrames` | src/dsp_source.rs:147-149 | the first `n` mono samples: exactly `n`, sample `k` being the unit's mono output after `k` ticks |
| `FunDsp.TicksAdd` | src/backend/oddio.rs:127-131 | ticking `a` times then `b` times equals ticking `a + b` times |
| `FunDsp.TagSetIsAudible` | src/backend/oddio.rs:255-257 | after `set(id, w)` on `tag(id, v)` the very next stereo frame is `[w, w]` and the next mono sample `w` |
| `FunDsp.ConstantTagFrames` | src/backend/oddio.rs:245-253 | a `tag(id, v)` unit yields `[v, v]` on every stereo frame and `v` on every mono sample, however many are pulled |
| `DspData.Id` | src/dsp_data.rs:23-26 | the id is derived from the type name of the graph function alone |
| `DspData.IdIgnoresBehaviour` | src/dsp_data.rs:23-26 | two graph functions whose types have the same name get the same id, whatever units they build |
| `DspData.IdDeterminesTypeName` | src/dsp_data.rs:23-26 | ids are equal exactly when type names are (hash collisions are not modelled) |
| `DspData.GenerateGraph` | src/dsp_data.rs:28-30 | each call yields the unit the graph function builds, exposing the same tags with the same values |
| `DspSources.New` | src/dsp_source.rs:44-50 | the source stores exactly the given graph, sample rate and source type |
| `DspSources.IntoDspSource` | src/dsp_data.rs:10-15 | `into_dsp_source(sr, st)` yields the source `DspSource::new` builds: same graph, sample rate `sr`, type `st` |
| `DspSources.ToBytes` | src/dsp_source.rs:52-60 | only for a `Static` source (precondition); renders a freshly generated unit at the source's sample rate for its duration |
| `DspSources.IntoIter` | src/dsp_source.rs:75-80 | a new stream with the source's sample rate over a unit freshly generated by the graph function |
| `DspSources.DspSourceIter.Sample` | src/dsp_source.rs:120-123 | returns the unit's current stereo frame and ticks it once |
| `DspSources.DspSourceIter.Next` | src/dsp_source.rs:129-131 | always `Some` (the stream never ends): the current stereo frame, after which the unit has ticked once |
| `DspSources.DspSourceIter.Advance` | src/dsp_source.rs:98-102 | the unit ends up ticked exactly `(sample_rate * dt) as usize` times; nothing is returned |
| `DspSources.DspSourceIter.IntoMono` | src/dsp_source.rs:108-110 | the mono view wraps this very stream, so unit and sample rate are shared |
| `DspSources.DspSourceIterMono.Sample` | src/dsp_source.rs:147-149 | returns the wrapped unit's mono output and ticks it once |
| `DspSources.DspSourceIterMono.Next` | src/dsp_source.rs:155-157 | always `Some`: the current mono sample, after one tick of the shared unit |
| `DspSources.DspSourceIterMono.Advance` | src/dsp_source.rs:98-102 | the shared unit is ticked exactly `(sample_rate * dt) as usize` times, with the wrapped stream's sample rate |
| `DspSources.AdvanceThenFrames` | src/dsp_source.rs:98-102 | pulling `n` frames after skipping `k` gives frames `k .. k + n - 1` of the undisturbed stream |
| `Registry.DspManager.Default` | src/dsp_manager.rs:25-32 | an empty collection with the default sample rate |
| `Registry.DspManager.New` | src/dsp_manager.rs:35-40 | an empty collection with the given sample rate |
| `Registry.DspManager.GetGraph` | src/dsp_manager.rs:51-53 | `Some` exactly when a graph with that id was added (so `None` for one never added); the source returned carries the manager's sample rate and a graph of the same type name; reads the manager and changes nothing |
| `Registry.DspManager.AddGraph` | src/dsp_manager.rs:42-47 | inserts `DspSource::new(g, sample_rate, st)` under `g`'s id, replacing any earlier entry (last write wins); `get_graph(g)` then returns it; every other id reads as before |
| `Registry.SharedTypeNameOverwrites` | src/dsp_data.rs:23-26 | registering two graph functions whose types share a name keeps only the second: looking up the first yields the second's source |
| `LegacyRegistry.NewSource` | src/lib.rs:65-70 | stores exactly the given unit and length |
| `LegacyRegistry.FromBoxed` | src/lib.rs:74-76 | stores exactly the given unit and length |
| `LegacyRegistry.AssetStore.Add` | src/lib.rs:209 | stores the asset under a handle that was not in use before; nothing else changes |
| `LegacyRegistry.DspAssets.GetGraph` | src/lib.rs:241-247 | `Some` exactly when the function's `TypeId` has a handle, and then that handle |
| `LegacyRegistry.DspAssets.Graph` | src/lib.rs:254-264 | requires the `TypeId` to have a handle (panics otherwise) and returns the handle `get_graph` finds |
| `LegacyRegistry.DspManager.Default` | src/lib.rs:217-224 | no graphs, sample rate 44100 |
| `LegacyRegistry.DspManager.AddGraph` | src/lib.rs:170-174 | stores the function and length under its `TypeId`, replacing any earlier entry; `get_graph(f)` then yields a source with length `len` built by `f`; other keys read as before; returns the manager |
| `LegacyRegistry.DspManager.RemoveGraph` | src/lib.rs:177-180 | removes the `TypeId`'s entry so `get_graph(f)` is `None`; other keys read as before; removing an absent key changes nothing; returns the manager |
| `LegacyRegistry.DspManager.GetGraph` | src/lib.rs:183-187 | `Some` exactly when the `TypeId` is registered: a source with the stored length over a unit built by the stored function; changes nothing |
| `LegacyRegistry.DspManager.AddAssets` | src/lib.rs:194-213 | the handles' key set equals the manager's key set; handles are pairwise distinct and new to the store; each points to the asset made from that key's graph, length and the manager's sample rate; existing assets are untouched |
| `LegacyRegistry.ValuesAfterInsert` | src/lib.rs:210-212 | collecting one more `(type_id, handle)` pair under a new key adds exactly that handle to the collected handles |
| `OddioBackend.ExactSizeIter.Len` | src/backend/oddio.rs:118-120 | the number of buffered frames not yet taken; 0 exactly when the buffer is exhausted |
| `OddioBackend.ExactSizeIter.Sample` | src/backend/oddio.rs:95-100 | the next buffered frame, removed from the buffer, or `Stereo::ZERO` with the buffer unchanged once it is empty |
| `OddioBackend.ExactSizeIter.Next` | src/backend/oddio.rs:109-111 | `None` exactly when `len` is 0; otherwise the next buffered frame, and `len` shrinks by exactly one |
| `OddioBackend.ExactSizeIter.Advance` | src/dsp_source.rs:98-102 | drops the first `(sample_rate * dt) as usize` buffered frames, or all of them if fewer remain |
| `OddioBackend.IntoExactSizeIter` | src/backend/oddio.rs:52-74 | only for a `Static` source (precondition); the sample rate is the source's; `len` is `round(sample_rate * duration)`; the buffer is that many first frames of a freshly generated unit, those a stream over the source starts with |
| `OddioBackend.SignalSample` | src/backend/oddio.rs:126-133 | advances by `interval`, then overwrites every slot of `out` in order with the frames that follow the skipped ones; the unit ends up ticked once per skipped and once per written frame |
| `OddioBackend.DspControl.Get` | src/backend/oddio.rs:187-189 | the current value of the tag in the stream's own unit, `None` for a tag the unit does not expose |
| `OddioBackend.DspControl.Set` | src/backend/oddio.rs:187-198 | changes the parameter in the stream's own unit; `get(t)` then observes `v` if the unit exposes `t`; other tags read as before |
| `OddioBackend.Control` | src/backend/oddio.rs:207-213 | a control over the stereo stream's own unit |
| `OddioBackend.ControlMono` | src/backend/oddio.rs:215-221 | a control over the unit of the stream the mono view wraps |
| `OddioBackend.MakeControl` | src/backend/oddio.rs:223-229 | a control over the stereo stream's own unit |
| `OddioBackend.ConstantControllable` | src/backend/oddio.rs:241-272 | for a dynamic `tag(0, 440)` source: three `[440, 440]` frames, then after `set(0, 880)` three `[880, 880]`; the mono view of the same unit then yields `880` three times and, after `set(0, 440)`, `440` three times |

## Left out

- Rendering and encoding: `Wave32::render`, `write_wav16` and
  `generate_raw_bytes` (src/lib.rs:84-93) are fundsp code on `f32`;
  `DspSources.ToBytes` stops at the render's inputs.
- The DSP itself (`get_stereo`, `get_mono`, `tick`): outputs are abstract
  deterministic functions of the parameter history. A graph function is
  assumed to build the same unit on every call.
- `DspData.Id`: the UUIDv5/SHA-1 derivation is not modelled; ids are
  injective in the type name, so hash collisions are not captured.
- Floating point: `f32`/`f64` products and their rounding are exact reals;
  `usize` is 64 bits.
- `Registry.DspManager.Default`: `default_sample_rate()` is not part of this
  model, so the default rate is a constructor parameter.
- `RefCell`/`Rc`/`Arc` sharing: each stream owns one unit object; a control
  refers to that stream. Borrow-checking failures cannot arise single-threaded.
- `LegacyRegistry.DspGraph` drops the `settings` field (`()` for the
  bevy_audio and oddio back ends; kira settings are not modelled), and
  `AudioAsset` records the inputs of `into_audio_source` rather than
  converting them, since that conversion is back-end code.
- Back-end glue in src/backend/oddio.rs: `OddioBackend::init_app`,
  `convert_to_audio_source` (which wraps `IntoExactSizeIter`), `to_signal`
  (a clone followed by `IntoIter`) and `play_dsp_with_settings`; likewise
  `DspPlugin` and `generate_assets` in src/lib.rs and the other back ends.
- `ExactSizeIter::sample_rate` and `DspSourceIterMono::sample_rate` are the
  stored field read back and carry no contract of their own.
