# Per-guild music playback core, modelled in Dafny

This project models the stateful core of a Discord music bot cog
(`bot/cogs/music.py`). Each guild has a player that owns a queue: an ordered
list of tracks, an integer cursor `position` and a repeat mode (NONE, ONE or
ALL). The cog's commands move the cursor, change the list and the mode,
and send directives to a remote audio node: connect, play, stop, pause, seek
and set-volume. The node's track-end events then decide what plays next.
The model keeps the Python semantics that matter here:

- The cursor really goes negative. Previous from position 1 leaves -1, and
  skip-to 0 or 1 leaves -2 or -1. Python then reads a negative index and a
  negative slice bound from the end of the list, and a cursor below `-len`
  makes `current_track` raise IndexError.
- Without ALL, each further advance past the end moves the cursor on
  again. A later `add` can therefore put a track exactly under the cursor.

Modules:

- `Errors` (errors.dfy): the cog's error conditions, with `Option` and `Result`.
- `PySeq` (pyseq.dfy): Python's `s[i]`, `s[i:]` and `s[:i]` for any integer `i`.
- `Queues` (queue.dfy): `Track`; `RepeatMode`; `QueueState`, the value of a
  queue, whose member functions are the read-only properties and
  `get_next_track`; the lemmas about them; and `class Queue`, the object whose
  methods change the list and the cursor in place. Each `Queue` method is
  tied to `QueueState` through `State()`.
- `Volume` (volume.dfy) and `Seek` (seek.dfy): the pure arithmetic of the
  volume commands, and the `TIME_REGEX` match of the seek command.
- `Players` (player.dfy): `class Player`. It holds the queue, the node's
  `is_connected`, `is_playing`, `is_paused` and `volume`, and a ghost trace
  of the directives sent so far.
- `MusicCog` (commands.dfy): the track-end listener and the command
  handlers, as methods on a player.

The behaviour shown by the lemmas:

- Under ALL the queue cycles forever.
- Without ALL, from a cursor at or after -1, it plays straight through and then returns nothing at every call.
- Skip-to `k` lands on the `k`-th track, counting from 1, at the next advance.
- Previous lands one track back only from a cursor in `1..len`.
- A shuffle keeps the current track and the history for every cursor except -1.
  At -1 the kept prefix `items[:0]` is empty, so the whole list is reordered,
  and Python's current track (`items[-1]`) can change.
- Under ONE the track-end event replays the track under the cursor instead
  of advancing.
  - Skip-to `k` with `2 <= k <= len` then plays track `k-1`, not track `k`.
  - Skip-to 1 leaves the cursor at -1 and plays the last track.
  - Skip-to 0 leaves it at -2 and plays the second-to-last track, or raises
    IndexError on a one-track queue.
  - Skip does not move the cursor, so it replays the current track.

Two consequences of the code's order of operations that are easy to miss:

- An advance from a cursor below -1 returns nothing but still moves the
  cursor, because the increment on line 147 runs before the check on
  line 149.
- `current_track` returns a track for every cursor with
  `-len <= position <= len-1`, not only for `0 <= position < len`; a
  negative cursor is read from the end. Below `-len` it raises IndexError.

## Model

| member | source | states |
|---|---|---|
| `PySeq.SliceBound` | bot/cogs/music.py:127 | a slice bound counts from the end when negative and is clamped to 0..len |
| `PySeq.From` | bot/cogs/music.py:127 | `s[i:]` for every integer `i`: the tail from `i`, from `len+i` when negative, all of `s` below `-len`, empty past the end |
| `PySeq.Upto` | bot/cogs/music.py:134 | `s[:i]` for every integer `i`, with the same reading of negative and out-of-range bounds |
| `PySeq.UptoFrom` | bot/cogs/music.py:163-166 | `s[:i] + s[i:] == s` for every bound, which is why shuffle keeps the list's tracks |
| `PySeq.At` | bot/cogs/music.py:120 | `s[i]` is defined exactly for `-len <= i < len`, reading a negative index from the end |
| `Queues.ModeForToken` | bot/cogs/music.py:168-174 | the three tokens select NONE, ONE and ALL; any other token leaves the mode as it was |
| `Queues.TokensSelectModes` | bot/cogs/music.py:168-174 | every mode is selected by its token from any mode, and every accepted token names the mode it selects |
| `Queues.QueueState.CurrentTrack` | bot/cogs/music.py:114-120 | QueueIsEmpty iff the list is empty; the track at the cursor for `0 <= position < len`; the track `len+position` for a negative cursor down to `-len`; None past the end; IndexError below `-len` |
| `Queues.QueueState.Upcoming` | bot/cogs/music.py:122-127 | QueueIsEmpty iff empty; otherwise `items[position+1:]` with Python's reading of the bound in each range of the cursor |
| `Queues.QueueState.History` | bot/cogs/music.py:129-134 | QueueIsEmpty iff empty; otherwise `items[:position]` with Python's reading of the bound in each range of the cursor |
| `Queues.QueueState.NextTrack` | bot/cogs/music.py:143-157 | QueueIsEmpty on an empty list with nothing changed; otherwise the cursor moves to old+1; it returns None below 0, the track at the new cursor inside the list, and past the end the first track with the cursor reset to 0 under ALL, else None with the cursor left at old+1; list and mode never change |
| `Queues.AdvanceBy` | bot/cogs/music.py:143-157 | any number of `get_next_track` calls keeps the list and the mode |
| `Queues.NextTrackBecomesCurrent` | bot/cogs/music.py:143-157 | whenever an advance returns a track, that track is then the current track |
| `Queues.CycleUnderRepeatAll` | bot/cogs/music.py:151-157 | under ALL, from a cursor on a track, k advances leave the cursor at (position+k) mod len and the next one returns the track at (position+k+1) mod len: the cycle 0..N-1 repeats forever |
| `Queues.CyclePosition` | bot/cogs/music.py:147-153 | under ALL, k advances put the cursor at (position+k) mod len |
| `Queues.ModSuccessor` | bot/cogs/music.py:151-153 | the wrap-around step: (a+1) mod n is a mod n + 1, or 0 when that reaches n |
| `Queues.AdvanceByAdd` | bot/cogs/music.py:143-157 | successive `get_next_track` calls compose: a+b advances are a advances followed by b |
| `Queues.FullCycleReturns` | bot/cogs/music.py:147-153 | under ALL, N advances from a cursor on a track give back exactly the same queue |
| `Queues.RepeatAllIsPeriodic` | bot/cogs/music.py:147-153 | under ALL, the queue after k+N advances equals the queue after k: the cycle never ends |
| `Queues.PlayThroughWithoutRepeatAll` | bot/cogs/music.py:147-155 | without ALL, from a cursor at or after -1, k advances move the cursor by exactly k; the next one returns the following track while there is one and None at every call after that |
| `Queues.SkipToLandsOnIndex` | bot/cogs/music.py:594-597 | after skip-to sets `position = index-2`, the next advance returns track `index-1` for 1 <= index <= len and None for index 0, leaving the cursor at `index-1` |
| `Queues.HistoryNonEmpty` | bot/cogs/music.py:436-437 | the history is non-empty exactly when the cursor is at 1 or beyond, or negative but above `-len` |
| `Queues.PreviousStepsBackOne` | bot/cogs/music.py:436-439 | after previous moves the cursor back two, the next advance returns the track before the old cursor when the old cursor was in 1..len; from further past the end it returns the first track under ALL and None otherwise; from a negative cursor it returns None |
| `Queues.SkipPlaysUpcoming` | bot/cogs/music.py:419-422 | with upcoming tracks, the advance after skip returns the first upcoming track when the cursor is at or after -1, and None when it is below |
| `Queues.AddKeepsCursorView` | bot/cogs/music.py:140-141 | from a cursor on a track, `add` keeps the current track and the history and appends the new tracks to the upcoming ones |
| `Queues.AddAfterFinishFillsCursor` | bot/cogs/music.py:140-141 | once the cursor is one past the end, the first track added becomes the current track |
| `Queues.AddMovesNegativeCursor` | bot/cogs/music.py:119-120 | with the cursor at -1, `add` makes the last track added the current track |
| `Queues.ShuffleKeepsCursorView` | bot/cogs/music.py:159-166 | for every cursor except -1, a shuffle keeps the current track and the history, permutes the upcoming tracks and keeps the list's multiset of tracks |
| `Queues.ShuffleKeepsCurrent` | bot/cogs/music.py:163-166 | the current-track half of ShuffleKeepsCursorView |
| `Queues.ShuffleKeepsHistory` | bot/cogs/music.py:163-166 | the history half of ShuffleKeepsCursorView |
| `Queues.ShuffleAtMinusOneMovesCurrent` | bot/cogs/music.py:163-166 | at cursor -1 the kept prefix is empty: reordering [a, b] to [b, a] is a valid shuffle and moves the current track from b to a |
| `Queues.Queue.constructor` | bot/cogs/music.py:105-108 | a new queue is empty, at position 0, with mode NONE |
| `Queues.Queue.Add` | bot/cogs/music.py:140-141 | appends the tracks in order; position and mode unchanged |
| `Queues.Queue.GetNextTrack` | bot/cogs/music.py:143-157 | the result and the new state are those of `QueueState.NextTrack` on the old state |
| `Queues.Queue.Shuffle` | bot/cogs/music.py:159-166 | QueueIsEmpty with nothing changed on an empty list; otherwise `items[:position+1]` is kept and the rest is a permutation of the old upcoming tracks; position and mode unchanged |
| `Queues.Queue.SetRepeatMode` | bot/cogs/music.py:168-174 | the mode becomes `ModeForToken(token, old mode)` |
| `Queues.Queue.Empty` | bot/cogs/music.py:176-178 | the list is empty and the position 0; the mode is kept |
| `Volume.CheckedLevel` | bot/cogs/music.py:509-513 | VolumeTooLow below 0, VolumeTooHigh above 150, otherwise the level itself |
| `Volume.Raised` | bot/cogs/music.py:529-532 | MaxVolume exactly at 150; otherwise exactly `min(v+10, 150)`: a step of 10 up, and 150 for 141..149 (a level above 150 comes back down to 150) |
| `Volume.Lowered` | bot/cogs/music.py:544-547 | MinVolume exactly at 0; otherwise exactly `max(0, v-10)`: a step of 10 down, and 0 for 1..9 |
| `Volume.CommandsKeepRange` | bot/cogs/music.py:509-547 | from a level in 0..150 every volume command leaves a level in 0..150 |
| `Volume.StepsUndoEachOther` | bot/cogs/music.py:529-547 | away from the clamped ends, a step up and a step down undo each other |
| `Volume.ClampedStepIsLossy` | bot/cogs/music.py:529-547 | at the ends the clamp loses a level: 145 goes up to 150 and back down to 140 |
| `Seek.SecondsGroup` | bot/cogs/music.py:20 | group 3 is present iff a digit follows the separator; it holds the two-digit value when two digits follow, else the one digit's value |
| `Seek.MatchTime` | bot/cogs/music.py:630 | `re.match(TIME_REGEX, text)` succeeds iff the text starts with one digit and a separator, or two digits and a separator; group 1 is the two-digit number when two digits precede a separator, else the one digit, and group 3 is read from the text after that separator; the groups are at most 99 |
| `Seek.ParseSeek` | bot/cogs/music.py:630-638 | InvalidTimeString iff the pattern does not match at the start; otherwise `(g1*60+g3)*1000` ms with group 3, `g1*1000` without; at most 6 039 000 ms |
| `Seek.MinutesSecondsRoundTrip` | bot/cogs/music.py:633-638 | "M", any separator `:`, `m` or `s`, zero-padded "SS", then any text, seeks to (M*60+SS)*1000 ms |
| `Seek.UnpaddedMinutesSecondsRoundTrip` | bot/cogs/music.py:630-638 | "M", a separator and unpadded seconds ("1:5", "1m30s") seek to (M*60+S)*1000 ms, provided a lone seconds digit is not followed by another digit |
| `Seek.SecondsRoundTrip` | bot/cogs/music.py:635-638 | "Ns" not followed by a digit seeks to N*1000 ms |
| `Seek.DigitAfterSecondsMeansMinutes` | bot/cogs/music.py:20 | the unanchored end and the greedy groups: "5s30" seeks to 330 s, "1:" to 1 s, "1m30s" to 90 s, "1:5" to 65 s, and "123" is refused |
| `Players.TargetChannel` | bot/cogs/music.py:191 | the caller's voice channel whenever the caller has a voice state, the requested channel only when the caller has none |
| `Players.TracksToAdd` | bot/cogs/music.py:203-216 | NoTracksFound iff nothing or no candidate was found; all tracks of a playlist; the single candidate; for several candidates the chosen one, nothing on a timeout, IndexError for an option beyond the candidates; a choice is always among the at most five candidates shown |
| `Players.PlayOutcome` | bot/cogs/music.py:254-255 | playing the current track plays exactly the track under the cursor, or fails with `current_track`'s error or NoCurrentTrack |
| `Players.Player.constructor` | bot/cogs/music.py:182-184 | a new player has a fresh empty queue, is not connected, playing or paused, and is at volume 100 |
| `Players.Player.Connect` | bot/cogs/music.py:187-195 | AlreadyConnectedToChannel when connected; NoVoiceChannel when no target channel; otherwise connects to the target channel, returns it and sends the connect directive |
| `Players.Player.AddTracks` | bot/cogs/music.py:203-218 | errors from the selection leave everything unchanged; otherwise the selected tracks are appended with the cursor kept, and playback starts (as StartPlayback) iff nothing was playing and the queue is non-empty |
| `Players.Player.StartPlayback` | bot/cogs/music.py:254-255 | the current track is sent and playing, or nothing changes and the error is returned |
| `Players.Player.Advance` | bot/cogs/music.py:257-262 | the queue moves on as `get_next_track` does; a returned track is sent and playing; None or QueueIsEmpty sends nothing and raises nothing |
| `Players.Player.RepeatTrack` | bot/cogs/music.py:264-265 | the current track is played again, exactly as StartPlayback does |
| `Players.Player.TrackEnded` | bot/cogs/music.py:284-286 | the node's end, stuck or failure event: the player stops playing and nothing else changes, so `not is_playing` holds afterwards |
| `MusicCog.OnPlayerStop` | bot/cogs/music.py:284-291 | the ended track stops playing; under ONE the current track is replayed with the queue untouched, or the player is left idle with the error; otherwise the queue moves on as `get_next_track` does and a returned track is played, else the player is left idle |
| `MusicCog.PlayCommand` | bot/cogs/music.py:365-384 | connects first when not connected, to the caller's channel only, and sends that connect; without a query QueueIsEmpty on an empty queue, else sends resume; with a query appends the selected tracks and autostarts the current track iff nothing was playing; each outcome states the whole directive trace, and the volume and mode are kept |
| `MusicCog.PauseCommand` | bot/cogs/music.py:393-401 | PlayerIsAlreadyPaused when paused, else sends pause, with playing, connection and volume kept |
| `MusicCog.StopCommand` | bot/cogs/music.py:408-413 | clears the queue, rewinds the cursor to 0 and sends stop |
| `MusicCog.NextCommand` | bot/cogs/music.py:415-422 | QueueIsEmpty on an empty queue, NoMoreTracks without upcoming tracks, else sends stop only |
| `MusicCog.PreviousCommand` | bot/cogs/music.py:432-440 | QueueIsEmpty on an empty queue, NoPreviousTracks without history, else moves the cursor back by two and sends stop |
| `MusicCog.ShuffleCommand` | bot/cogs/music.py:450-453 | QueueIsEmpty on an empty queue, else a shuffle as Queue.Shuffle |
| `MusicCog.RepeatCommand` | bot/cogs/music.py:461-467 | InvalidRepeatMode for any other token, else the mode becomes the token's mode |
| `MusicCog.VolumeCommand` | bot/cogs/music.py:505-515 | VolumeTooLow / VolumeTooHigh outside 0..150, else sets and sends that level, with playing, paused and connection kept; the level stays in 0..150 |
| `MusicCog.VolumeUpCommand` | bot/cogs/music.py:525-532 | MaxVolume at 150, else sets and sends min(v+10, 150), with playing, paused and connection kept |
| `MusicCog.VolumeDownCommand` | bot/cogs/music.py:540-547 | MinVolume at 0, else sets and sends max(0, v-10), with playing, paused and connection kept |
| `MusicCog.SkipToCommand` | bot/cogs/music.py:587-598 | QueueIsEmpty on an empty queue, NoMoreTracks unless 0 <= index <= length, else sets the cursor to index-2 and sends stop |
| `MusicCog.RestartCommand` | bot/cogs/music.py:608-615 | QueueIsEmpty on an empty queue, else seeks to 0 |
| `MusicCog.SeekCommand` | bot/cogs/music.py:623-638 | QueueIsEmpty before InvalidTimeString, else seeks to the parsed milliseconds |
| `MusicCog.SkipToThenTrackEnd` | bot/cogs/music.py:597-598 | skip-to k (1 <= k <= len) followed by the track-end event sends stop and then plays track k (1-based) when the mode is not ONE |
| `MusicCog.SkipToThenTrackEndUnderRepeatOne` | bot/cogs/music.py:287-289 | under ONE, skip-to k (2 <= k <= len) followed by the track-end event plays track k-1 instead |
| `MusicCog.TrackEndThenAdd` | bot/cogs/music.py:217-218 | after the last track ends under NONE, adding a track plays that track at once, since the player is idle and the cursor is then on the new track |

## Left out

- Chat I/O: replies, embeds, message deletion, the error handlers that turn errors into replies, `help_command`, the display of `queue_command` and `playing_command`, and the DM check in `cog_check`.
- The reaction prompt of `choose_track`, with its 60-second wait: only its outcome is modelled, as the `choice` parameter (None on timeout, else an option 0..4 as `_check` admits).
- `random.shuffle`: it is one arbitrary permutation of the upcoming tracks, chosen in `Queue.Shuffle`.
- `URL_REGEX` and `wavelink.get_tracks`: the query is opaque, and `found` is what the search returned for it. A playlist result is taken to be always truthy, as an object without a length is in Python, so an empty playlist passes the NoTracksFound check.
- Node setup (`start_nodes`, `on_node_ready`) and the wavelink client and player internals. Each directive is an entry in the ghost trace. `play`, `stop`, `set_pause` and `set_volume` set `is_playing`, `is_paused` and `volume` the way the cog relies on, and the node's end of a track (`Player.TrackEnded`) clears `is_playing`. The initial volume of 100 is the library's default. The library's own clamp of the volume to 0..1000 never applies, since the commands only send 0..150.
- Playing `None`: when `start_playback` or `repeat_track` finds no track under the cursor, the cog passes `None` to the library's `play`, whose failure is not part of this model. The model returns `NoCurrentTrack` and sends nothing.
- The session registry (`get_player`) and the occupancy-driven teardown in `on_voice_state_update`, with `teardown`, `disconnect_command` and its KeyError swallowing: these depend on the library's player map and the guild's member lists.
- `connect_command` only forwards to `Player.Connect`, which is modelled.
- `is_empty` and `length` are read directly as `items == []` and `|items|` wherever the code uses them.
- The equalizer state (`eq_levels`, `HZ_BANDS`, the EQ errors) and lyrics: declared but used by no operation.
- The float time formatting in `playing_command` and `choose_track`.
- Concurrency: commands and node events for one guild are taken one at a time.
