# Boss Loop Station core, modelled in Dafny

This project models the sequential core of the Boss Loop Station looper:

- `track.dfy` (module `Tracks`) models one loop track: the `TrackState` machine and its three guarded transitions; recording, which appends to every channel; overdubbing, which adds input into channel 0 around the loop; playback through the playhead; and the undo/redo history, capped at 32 snapshots with linear-history semantics. It also models the track's own small `AudioBuffer`.
- `buffer.dfy` (module `Buffers`) models the multi-channel `AudioBuffer` with its shape-checked operations (`append`, `append_mono`, `mix`, `resize`, `apply_gain`, `to_mono`, `clear`). It also models the `BufferPool` of reusable storage, which keeps one FIFO queue per channel count, and the `PooledBuffer` handle that returns its storage to the pool when dropped.
- `clock.dfy` (module `Clock`) models the `MasterClock` (tempo, sample counter, samples per beat, beat position) and the `Quantizer`, whose two operations are stubs.
- `effects.dfy` (module `Effects`) models `EffectsChain::process`: an enabled flag, then the effects in list order, stopping at the first error with no rollback.
- `errors.dfy` (module `Errors`) holds the error values and the `Option`/`Result` wrappers.

Samples, gains and the tempo are `real`, so every equality is exact. Each buffer is a `seq<seq<real>>` indexed `[channel][sample]`, and its channel count is the number of channel vectors. Classes stand for the structs whose fields the source updates in place. Each method is proved against a specification function (`Mixed`, `Resized`, `Gained`, `Mono`, `Taken`, `Returned`, `RunChain`, `Overdubbed`, `PlayheadAfter`, `Saved`, `Undone`, `Redone`), and lemmas state what those functions promise. Where the source would panic, the model has a precondition instead. This covers indexing channel 0 of a buffer with no channels, taking a modulus by a zero length, and `to_mono` reading sample i of a channel shorter than channel 0 (`Buffers.MonoReadable`).

Client methods replay the repository's unit tests and two further scenarios:

- `Buffers.BufferOperationsExample` replays buffer.rs:271-284.
- `Buffers.BufferPoolExample` replays buffer.rs:286-297.
- `Tracks.RecordTwiceThenUndo` covers a rejected second `start_recording` followed by undo.
- `Tracks.ReplayAfterStop` is the playback finding below, on three samples.

The model follows the code where it behaves differently from what a reader might expect:

- `return_buffer` compares the number of channel-count buckets with `max_buffers`, not the number of queued buffers (`Buffers.SingleBucketGrowsWithoutBound`).
- Storage that comes back to the pool is not cleared (`Buffers.ReuseKeepsContents`).
- `set_bpm` accepts any tempo. `quantize` and `on_loop` do nothing.
- Only `Recording` is accepted by `stop_recording`, so no shown operation leaves `Overdubbing`, and nothing enters `Stopped` or `Muted`.
- `undo` and `redo` restore the buffer and the playhead but not the state or the loop length.

Four places in the source do not compile as written. The model takes their evident intent:

- In `append_mono`, the parameter is shadowed by `samples_mut()`. The model appends the parameter to every channel, as the unit test expects.
- `get` builds the handle's pool reference with `Arc::new(self.clone())`. The model's handle refers to the pool the storage came from.
- `to_mono` assigns a `Vec` to the slice returned by `samples_mut()` (`*samples = vec![mono_data]`), and its closure reads `self.channels` while `self` is mutably borrowed. The model replaces the storage by the single averaged channel, dividing by the channel count, and the channel count becomes 1.
- `Track::quantize` passes the track's own `AudioBuffer` where `Quantizer::quantize` expects the buffer module's `AudioBuffer`. The model's `Quantize` accepts a buffer of either type, which it ignores, as the stub does.

## Model

| member | source | states |
|---|---|---|
| Buffers.AudioBuffer.constructor | src/core/buffer.rs:45-52 | the buffer has the requested number of channels, all empty, so it is empty, with the given sample rate |
| Buffers.AudioBuffer.FromData | src/core/buffer.rs:55-72 | fails with `InvalidBuffer` exactly when there is no channel; otherwise the buffer holds the data unchanged |
| Buffers.AudioBuffer.Len | src/core/buffer.rs:85-87 | on a rectangular buffer, the length is the length of every channel |
| Buffers.AudioBuffer.IsEmpty | src/core/buffer.rs:90-92 | on a rectangular buffer, empty exactly when every channel is empty |
| Buffers.AudioBuffer.AppendMono | src/core/buffer.rs:105-111 | every channel is extended by the same samples; the channel count is kept and equal lengths stay equal |
| Buffers.AudioBuffer.Append | src/core/buffer.rs:113-124 | `ChannelMismatch` with no change exactly when the slice count differs from the channel count; otherwise channel c becomes old channel c followed by slice c |
| Buffers.AudioBuffer.Clear | src/core/buffer.rs:126-131 | every channel is emptied and the channel count is kept |
| Buffers.AudioBuffer.Mix | src/core/buffer.rs:134-153 | `BufferMismatch` with no change exactly when the channel counts or sample rates differ; otherwise the new samples are those of `Mixed` |
| Buffers.MixedAt | src/core/buffer.rs:134-153 | after a mix every channel has the longer of the two lengths, and sample i is the old sample (zero past the end) plus the other's sample (zero past its end) times the gain |
| Buffers.MixWithZeroGain | src/core/buffer.rs:134-153 | a mix with gain 0 only pads or cuts the buffer to the common length |
| Buffers.MixCommutes | src/core/buffer.rs:134-153 | two mixes into the same rectangular buffer give the same result in either order |
| Buffers.AudioBuffer.Resize | src/core/buffer.rs:155-160 | the new samples are those of `Resized` |
| Buffers.ResizedAt | src/core/buffer.rs:155-160 | after a resize to n, every channel has length n, keeps its old samples below n and holds zeros past its old end |
| Buffers.AudioBuffer.ApplyGain | src/core/buffer.rs:163-170 | the shape is kept and every sample is multiplied by the gain |
| Buffers.AudioBuffer.ToMono | src/core/buffer.rs:173-189 | a single channel is left alone; otherwise one channel whose sample i is the mean over all channels of sample i |
| Buffers.ColumnSumOfCopies | src/core/buffer.rs:178-182 | summing n equal samples across channels gives n times that sample |
| Buffers.MonoOfEqualChannels | src/core/buffer.rs:271-284 | downmixing channels that all hold the same samples gives exactly those samples |
| Buffers.ColumnSumScales | src/core/buffer.rs:163-182 | the sum across channels of gained samples is the gained sum |
| Buffers.MonoCommutesWithGain | src/core/buffer.rs:163-189 | downmixing then applying a gain equals applying the gain then downmixing |
| Buffers.BufferPool.constructor | src/core/buffer.rs:194-199 | a new pool has no bucket and keeps its cap |
| Buffers.BufferPool.Get | src/core/buffer.rs:202-216 | the handle holds the front storage of the bucket for the channel count, removed from it, or fresh empty channels when the bucket is empty; the bucket exists afterwards; the handle belongs to this pool |
| Buffers.BufferPool.ReturnBuffer | src/core/buffer.rs:219-226 | the storage is queued at the back of its bucket only while the bucket count is below the cap and the bucket exists; otherwise the pool is unchanged |
| Buffers.SingleBucketGrowsWithoutBound | src/core/buffer.rs:219-226 | with a single bucket and a cap of at least 2, every returned storage of that channel count is queued, without limit |
| Buffers.ReuseKeepsContents | src/core/buffer.rs:202-226 | storage taken again after it was returned still holds the samples it held |
| Buffers.ReturnThenTakeIsFifo | src/core/buffer.rs:202-226 | a storage returned to a non-empty bucket is not the next one taken: the bucket's queue is first in, first out |
| Buffers.PooledBuffer.New | src/core/buffer.rs:231-237 | the same as taking from the pool with `Get` |
| Buffers.PooledBuffer.Len | src/core/buffer.rs:240-242 | on rectangular storage, the length of every channel |
| Buffers.PooledBuffer.ExtendChannel | src/core/buffer.rs:253-257 | only channel c changes, extended by the given samples |
| Buffers.PooledBuffer.Drop | src/core/buffer.rs:259-264 | the handle is left with no storage and its storage is offered back to its pool |
| Effects.ComposeAppend | src/audio/effects/mod.rs:19-21 | applying two lists of effects one after the other is applying their concatenation |
| Effects.RunChainAppend | src/audio/effects/mod.rs:19-21 | a chain split anywhere runs its first part and then, unless that part failed, its second part on the first part's output |
| Effects.ChainSucceedsIff | src/audio/effects/mod.rs:19-23 | the chain succeeds exactly when every effect succeeds on the output of those before it, and its output is then the composition of all effects in order |
| Effects.FirstFailureIsReturned | src/audio/effects/mod.rs:19-21 | the first failing effect's error and output are the chain's result; the effects before it are not rolled back and later ones have no influence |
| Effects.EffectsChain.Process | src/audio/effects/mod.rs:14-24 | a disabled chain returns `Ok` and leaves the buffer alone; an enabled one leaves what `RunChain` leaves and returns its first error, if any |
| Clock.SamplesPerBeatExamples | src/sync/clock.rs:37-40 | 120 BPM at 44100 Hz gives 22050 samples per beat, and 60 BPM gives 44100 |
| Clock.SamplesPerBeatPositive | src/sync/clock.rs:37-40 | a beat has at least one sample exactly when the tempo is positive and at most 60 times the rate, or is zero at a positive rate |
| Clock.SamplesPerBeatAntitone | src/sync/clock.rs:37-40 | a faster positive tempo never gives a longer beat |
| Clock.PositionAt | src/sync/clock.rs:47-50 | the beat index times the beat length plus the offset is the counter, and the offset is below the beat length |
| Clock.BeatNeverDecreases | src/sync/clock.rs:46-60 | as the counter grows under a fixed beat length, the beat index never decreases, and within one beat the offset grows by exactly the samples elapsed |
| Clock.MasterClock.constructor | src/sync/clock.rs:25-31 | the counter starts at 0 and the tempo is the initial one |
| Clock.MasterClock.SamplesPerBeat | src/sync/clock.rs:37-40 | computed from the tempo held at the call; positive exactly for the tempos of `SamplesPerBeatPositive` |
| Clock.MasterClock.GetPosition | src/sync/clock.rs:46-52 | beat times samples per beat plus offset is the counter, and the offset is below the samples per beat; needs a positive beat length |
| Clock.MasterClock.Advance | src/sync/clock.rs:58-60 | the counter grows by exactly n, wrapping at 2^64; without a wrap it does not decrease, and at a positive beat length the beat index of `GetPosition` does not decrease |
| Clock.MasterClock.SetBpm | src/sync/clock.rs:66-69 | the tempo is replaced without validation, the counter is kept, and the next samples-per-beat reads the new tempo |
| Clock.Quantizer.Quantize | src/sync/clock.rs:84-91 | always `Ok`, and the buffer is not touched |
| Clock.Quantizer.OnLoop | src/sync/clock.rs:94-96 | the loop notification changes nothing: it has no `modifies` clause and no result |
| Tracks.OverdubbingIsFinal | src/core/track.rs:123-158 | no sequence of transitions leaves `Overdubbing` |
| Tracks.StoppedAndMutedUnreachable | src/core/track.rs:123-158 | from a state a new track can reach, no sequence of transitions enters `Stopped` or `Muted` |
| Tracks.AudioBuffer.constructor | src/core/track.rs:260-266 | the requested number of channels, all empty, and the sample rate |
| Tracks.AudioBuffer.Append | src/core/track.rs:269-273 | every channel is extended by the same samples and the channel count is kept |
| Tracks.AudioBuffer.Clear | src/core/track.rs:276-280 | every channel is emptied and the channel count is kept |
| Tracks.AudioBuffer.Len | src/core/track.rs:283-285 | zero exactly when channel 0 is empty |
| Tracks.Overdubbed | src/core/track.rs:166-169 | overdubbing keeps the channel's length |
| Tracks.OverdubbedAt | src/core/track.rs:166-169 | every position ends up with its old sample plus every input sample that landed on it, however often the input wraps |
| Tracks.OverdubWithinLoop | src/core/track.rs:164-173 | an input no longer than the loop adds sample i at `(cursor + i) % len` and leaves every other position unchanged |
| Tracks.PlayheadSplits | src/core/track.rs:185-194 | playing a + b samples moves the playhead as playing a, then b |
| Tracks.PlaybackIsCyclic | src/core/track.rs:185-194 | from a playhead inside the loop, output k reads position `(cursor + k) % len` |
| Tracks.ReplayAfterStopRepeatsFirstSample | src/core/track.rs:185-194 | as written, right after `stop_recording` output j >= 1 reads sample `(j - 1) % len`, so sample 0 is read twice and the last sample is not reached in the first loop |
| Tracks.IntendedPlayheadIsCyclic | src/core/track.rs:189-193 | with the intended step, the playhead after k >= 1 outputs is `(cursor + k) % len` from any start |
| Tracks.IntendedPlaybackIsCyclic | src/core/track.rs:185-194 | with the intended step, output k reads `(cursor + k) % len`, and after `stop_recording` output k < len reads sample k |
| Tracks.UndoRedoRoundTrip | src/core/track.rs:214-241 | redo right after a successful undo, and undo right after a successful redo, restore the history and the current buffer and cursor |
| Tracks.SavesKeepNewest | src/core/track.rs:244-253 | after any number of saves the undo stack holds exactly the newest 32 snapshots, oldest first, and the redo stack is empty |
| Tracks.UndoneTimesPops | src/core/track.rs:214-226 | k undos succeed exactly when the undo stack holds k snapshots; they pop the top k, and the last one popped becomes current |
| Tracks.UndoAfterSaves | src/core/track.rs:214-253 | after saves, k undos succeed exactly up to the number of snapshots kept (at most 32), and the k-th restores the k-th newest snapshot |
| Tracks.ThirtyThreeSaves | src/core/track.rs:244-253 | after 33 saves from an empty history, 32 undos restore the second snapshot and a 33rd undo fails |
| Tracks.Track.constructor | src/core/track.rs:98-121 | a new track is `Idle`, with cursor 0, no loop length, empty stacks and empty channels |
| Tracks.Track.SaveToHistory | src/core/track.rs:244-253 | the history becomes `Saved` of the old history and the current buffer and cursor, and the stack bound is kept |
| Tracks.Track.StartRecording | src/core/track.rs:124-135 | succeeds exactly from `Idle` or `Stopped`: it saves, empties every channel, rewinds the cursor and enters `Recording`; otherwise `InvalidStateTransition` and nothing changes |
| Tracks.Track.StopRecording | src/core/track.rs:138-146 | succeeds exactly from `Recording`: the loop length becomes the cursor and the state `Playing`; otherwise `InvalidStateTransition` and nothing changes |
| Tracks.Track.StartOverdub | src/core/track.rs:149-158 | succeeds exactly from `Playing`: it saves and enters `Overdubbing`; otherwise `InvalidStateTransition` and nothing changes |
| Tracks.Track.ProcessInput | src/core/track.rs:161-177 | recording appends the input to every channel; overdubbing makes channel 0 `Overdubbed`; both advance the cursor by the input's length; other states change nothing |
| Tracks.Track.ProcessOutput | src/core/track.rs:180-197 | the buffer is never modified; outside playback or on an empty buffer nothing changes; otherwise output j is the processed sample at `ReadIndex` and, after at least one output, the cursor is below the effective length |
| Tracks.Track.ApplyEffects | src/core/track.rs:200-204 | saves, then the buffer holds what the processor left, and its error comes back as an `EffectError` with the same message |
| Tracks.Track.Quantize | src/core/track.rs:207-211 | saves, leaves the buffer, state and cursor alone, and returns `Ok` |
| Tracks.Track.Undo | src/core/track.rs:214-226 | `NothingToUndo` with no change exactly when the undo stack is empty; otherwise the result of `Undone`; state and loop length are kept |
| Tracks.Track.Redo | src/core/track.rs:229-241 | `NothingToRedo` with no change exactly when the redo stack is empty; otherwise the result of `Redone`; state and loop length are kept |

## Left out

- The rest of the repository is not part of this model: JACK audio I/O, the engine (whose operations are empty), MIDI input, the command line and the terminal UI.
- Floating point: samples, gains and the tempo are exact reals, so f32 rounding and overflow are not modelled.
- Clock.MasterClock.SamplesPerBeat: the division `60 / bpm * rate` is exact, so f32 rounding before the truncating cast is not reproduced. The cast's saturation (`usize::MAX`, or 0 for negative results and NaN) is modelled.
- Clock.MasterClock.GetPosition: the f32 beat-progress fraction is left out. Only the integer offset within the beat is kept.
- Clock.MasterClock.Advance: the counter never decreases only while it does not wrap at 2^64, as `fetch_add` wraps.
- Concurrency and sharing: `Arc` copy-on-write, `DashMap`, `SegQueue`, `Mutex` and `AtomicUsize` become plain sequential state.
- Storage capacity: `capacity`, `Vec::with_capacity` and the pool test's capacity check are not modelled.
- The effect units and the track's effects processor are not part of this model. An effect, `process_sample` and `process_buffer` are arbitrary functions passed in.
- Track metadata (id, name, colour, creation time) and the unused `TrackEffects` struct are left out.
- Tracks.Track.Quantize: the source's `Clock` type, which is not part of this model, supplies the beat length; `MasterClock.SamplesPerBeat` stands in for it. The quantizer ignores the value anyway.
- Tracks.Track.ProcessInput: the cursor is an unbounded `nat`, so a `usize` overflow of `cursor_pos += input.len()` is not modelled.
- Tracks.Track.ProcessOutput: the precondition asks for a positive effective length no greater than channel 0's length whenever samples would be read. This is slightly stronger than the source's need, which is only that every index actually read is in range.

## Findings

| source | as written | input that shows it | evidently intended | confidence | as-written member | corrected member |
|---|---|---|---|---|---|---|
| src/core/track.rs:185-194 | the playhead is advanced from its raw value and reset to 0 only on reaching the loop length; after `stop_recording` it equals the loop length, so the first output reads sample 0 and the wrap makes the second output read sample 0 again | record 1.0, 2.0, 3.0, stop, play 4 samples: the output is 1.0, 1.0, 2.0, 3.0 (`Tracks.ReplayAfterStop`) | playback after `stop_recording` replays the loop from its first sample, each sample once and in order: 1.0, 2.0, 3.0, 1.0 | not executed; high | Tracks.ReplayAfterStopRepeatsFirstSample | Tracks.IntendedPlaybackIsCyclic |
