/** Error conditions and result wrappers shared by the playback core. */
module Errors {

  /** The command errors of the music cog that the playback core raises,
      plus two conditions that are not declared there:
      - `IndexError`, Python's error for a list index out of range
        (reachable when the cursor is far below zero), and
      - `NoCurrentTrack`, a play request made while no track is under the
        cursor (the cog then hands `None` to the audio library). */
  datatype Error =
    | AlreadyConnectedToChannel
    | NoVoiceChannel
    | QueueIsEmpty
    | NoTracksFound
    | PlayerIsAlreadyPaused
    | NoMoreTracks
    | NoPreviousTracks
    | InvalidRepeatMode
    | VolumeTooLow
    | VolumeTooHigh
    | MaxVolume
    | MinVolume
    | InvalidTimeString
    | IndexError
    | NoCurrentTrack

  datatype Option<+T> = None | Some(value: T)

  /** The outcome of an operation that may raise one of the errors above. */
  datatype Result<+T> = Ok(value: T) | Err(error: Error)
}
