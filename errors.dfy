/**
 * Error values shared by the looper core: the errors a buffer operation,
 * a track transition, the history or an effect can report, and the
 * Option / Result wrappers the operations return them in.
 */
module Errors {

  datatype Option<+T> = None | Some(value: T)

  /** The track-level failures: an event its current state does not accept,
      and an undo or redo with an empty history. */
  datatype TrackError =
    | InvalidStateTransition
    | NothingToUndo
    | NothingToRedo

  /** The failures the core reports to its callers. */
  datatype AudioError =
    | ChannelMismatch
    | BufferMismatch
    | InvalidBuffer
    | EffectError(message: string)
    | TrackFailure(reason: TrackError)

  /** `Ok(())` stands for Rust's `Ok(())`, `Err(e)` for `Err(e)`. */
  datatype Result<+T> = Ok(value: T) | Err(error: AudioError)
}
