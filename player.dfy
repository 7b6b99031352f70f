/** The per-guild player: it owns a queue, decides what to play from it, and
    sends directives (connect, play, stop, pause, seek, volume) to the remote
    audio node. The node's own state that the cog reads (`is_connected`,
    `is_playing`, `is_paused`, `volume`) is kept as fields, and the
    directives sent so far as a ghost trace. */
module Players {
  import opened Errors
  import opened Queues
  import Volume

  type ChannelId = nat

  /** The caller's voice state; present while the caller is in a voice
      room, and then carrying that room's channel. */
  datatype VoiceState = VoiceState(channel: Option<ChannelId>)

  /** What the track search returned for a query: nothing, a playlist, or a
      list of candidate tracks. */
  datatype SearchResult = NotFound | Playlist(tracks: seq<Track>) | Results(candidates: seq<Track>)

  /** A one-way command to the audio node. */
  datatype Directive =
    | ConnectTo(channel: ChannelId)
    | PlayTrack(track: Track)
    | StopTrack
    | SetPauseTo(paused: bool)
    | SeekTo(millis: nat)
    | SetVolumeTo(level: int)

  /** The five reaction options of the track choice, for candidates 1 to 5. */
  const OptionCount: nat := 5

  /** The channel `connect` joins: `getattr(ctx.author.voice, "channel",
      channel)` takes the caller's voice channel whenever the caller has a
      voice state, and the requested channel only when the caller has none. */
  function TargetChannel(voice: Option<VoiceState>, requested: Option<ChannelId>): (c: Option<ChannelId>)
    ensures voice.None? ==> c == requested
    ensures voice.Some? ==> c == voice.value.channel
  {
    match voice
    case Some(v) => v.channel
    case None => requested
  }

  /** The tracks `add_tracks` appends for a search result, where `choice` is
      the outcome of the reaction prompt (None when it timed out): all tracks
      of a playlist, the one track of a single result, and for several
      candidates the chosen one or nothing. A reaction may name an option
      beyond the candidates shown, and Python's list index then fails. */
  function TracksToAdd(found: SearchResult, choice: Option<nat>): (r: Result<seq<Track>>)
    requires choice.Some? ==> choice.value < OptionCount
    ensures r == Err(NoTracksFound) <==> found.NotFound? || found == Results([])
    ensures found.Playlist? ==> r == Ok(found.tracks)
    ensures found.Results? && |found.candidates| == 1 ==> r == Ok(found.candidates)
    ensures found.Results? && |found.candidates| > 1 && choice.None? ==> r == Ok([])
    ensures found.Results? && |found.candidates| > 1 && choice.Some? ==>
      if choice.value < |found.candidates| then r == Ok([found.candidates[choice.value]])
      else r == Err(IndexError)
    ensures r.Ok? && found.Results? ==>
      && |r.value| <= 1
      && forall t :: t in r.value ==> t in found.candidates[..if |found.candidates| < OptionCount then |found.candidates| else OptionCount]
  {
    match found
    case NotFound => Err(NoTracksFound)
    case Playlist(tracks) => Ok(tracks)
    case Results(candidates) =>
      if candidates == [] then Err(NoTracksFound)
      else if |candidates| == 1 then Ok(candidates)
      else
        match choice
        case None => Ok([])
        case Some(i) => if i < |candidates| then Ok([candidates[i]]) else Err(IndexError)
  }

  /** What playing the current track comes to: the track, or the error of
      `current_track`, or NoCurrentTrack when the cursor is past the end. */
  function PlayOutcome(current: Result<Option<Track>>): (r: Result<Track>)
    ensures current.Err? ==> r == Err(current.error)
    ensures current == Ok(None) ==> r == Err(NoCurrentTrack)
    ensures r.Ok? <==> current.Ok? && current.value.Some?
    ensures r.Ok? ==> current == Ok(Some(r.value))
  {
    match current
    case Err(e) => Err(e)
    case Ok(None) => Err(NoCurrentTrack)
    case Ok(Some(t)) => Ok(t)
  }

  class Player {
    const queue: Queue
    var isConnected: bool
    var isPlaying: bool
    var isPaused: bool
    var volume: int
    ghost var directives: seq<Directive>

    /** The volume commands keep the level within 0..150. */
    ghost predicate Valid()
      reads this
    {
      0 <= volume <= Volume.MaxLevel
    }

    /** A new player: an empty queue, not connected, at the node's default
        volume of 100. */
    constructor ()
      ensures Valid() && fresh(queue)
      ensures queue.items == [] && queue.position == 0 && queue.repeatMode == Off
      ensures !isConnected && !isPlaying && !isPaused && volume == 100 && directives == []
    {
      queue := new Queue();
      isConnected, isPlaying, isPaused := false, false, false;
      volume := 100;
      directives := [];
    }

    /** Sending `d` to the node, with nothing but `isPlaying` and the trace changed. */
    twostate predicate Sent(d: Directive)
      reads this
    {
      && directives == old(directives) + [d]
      && isConnected == old(isConnected)
      && isPaused == old(isPaused)
      && volume == old(volume)
    }

    /** The node reported the end of the track: nothing plays any more, and
        nothing else changed. */
    twostate predicate Ended()
      reads this
    {
      && !isPlaying
      && directives == old(directives)
      && isConnected == old(isConnected)
      && isPaused == old(isPaused)
      && volume == old(volume)
    }

    /** After `start_playback` or `repeat_track` returned `r`: the current
        track was sent to the node and is playing, or nothing changed and
        `r` is the reason. */
    twostate predicate PlayedCurrent(new r: Result<()>)
      reads this, queue
    {
      var o := PlayOutcome(queue.State().CurrentTrack());
      if o.Ok? then r == Ok(()) && isPlaying && Sent(PlayTrack(o.value))
      else r == Err(o.error) && unchanged(this)
    }

    /** After `advance`: the queue moved on as `get_next_track` does, and the
        track it returned, if any, was sent to the node and is playing. */
    twostate predicate Advanced()
      reads this, queue
    {
      var next := old(queue.State()).NextTrack();
      && queue.State() == next.1
      && if next.0.Ok? && next.0.value.Some? then isPlaying && Sent(PlayTrack(next.0.value.value))
         else unchanged(this)
    }

    /** `connect`: refuses a second connection, then joins the target channel. */
    method Connect(voice: Option<VoiceState>, requested: Option<ChannelId>) returns (r: Result<ChannelId>)
      modifies this
      ensures old(isConnected) ==> r == Err(AlreadyConnectedToChannel) && unchanged(this)
      ensures !old(isConnected) && TargetChannel(voice, requested).None? ==>
        r == Err(NoVoiceChannel) && unchanged(this)
      ensures !old(isConnected) && TargetChannel(voice, requested).Some? ==>
        r == Ok(TargetChannel(voice, requested).value) && isConnected
        && directives == old(directives) + [ConnectTo(r.value)]
        && isPlaying == old(isPlaying) && isPaused == old(isPaused) && volume == old(volume)
    {
      if isConnected {
        return Err(AlreadyConnectedToChannel);
      }
      var channel := TargetChannel(voice, requested);
      if channel.None? {
        return Err(NoVoiceChannel);
      }
      isConnected := true;
      directives := directives + [ConnectTo(channel.value)];
      r := Ok(channel.value);
    }

    /** `add_tracks`: appends what the search result and the choice select,
        then starts playback if nothing is playing and the queue has tracks. */
    method AddTracks(found: SearchResult, choice: Option<nat>) returns (r: Result<()>)
      requires choice.Some? ==> choice.value < OptionCount
      modifies this, queue
      ensures var selected := TracksToAdd(found, choice);
        && (selected.Err? ==> r == Err(selected.error) && unchanged(this) && unchanged(queue))
        && (selected.Ok? ==>
              && queue.items == old(queue.items) + selected.value
              && queue.position == old(queue.position)
              && queue.repeatMode == old(queue.repeatMode)
              && (if !old(isPlaying) && queue.items != [] then PlayedCurrent(r)
                  else r == Ok(()) && unchanged(this)))
    {
      var selected := TracksToAdd(found, choice);
      if selected.Err? {
        return Err(selected.error);
      }
      queue.Add(selected.value);
      if !isPlaying && queue.items != [] {
        r := StartPlayback();
      } else {
        r := Ok(());
      }
    }

    /** `start_playback`: plays the current track. */
    method StartPlayback() returns (r: Result<()>)
      modifies this
      ensures PlayedCurrent(r)
    {
      var current := queue.State().CurrentTrack();
      match PlayOutcome(current)
      case Ok(t) =>
        Play(t);
        r := Ok(());
      case Err(e) =>
        r := Err(e);
    }

    /** `advance`: plays the next track if there is one; an empty queue is
        no error here. */
    method Advance()
      modifies this, queue
      ensures Advanced()
    {
      var next := queue.GetNextTrack();
      if next.Ok? && next.value.Some? {
        Play(next.value.value);
      }
    }

    /** `repeat_track`: plays the current track again, as `start_playback` does. */
    method RepeatTrack() returns (r: Result<()>)
      modifies this
      ensures PlayedCurrent(r)
    {
      r := StartPlayback();
    }

    // The node's side of the directives the cog sends.

    method Play(t: Track)
      modifies this
      ensures isPlaying && Sent(PlayTrack(t))
    {
      isPlaying := true;
      directives := directives + [PlayTrack(t)];
    }

    /** Stopping ends the track; the node then reports the track's end. */
    method Stop()
      modifies this
      ensures !isPlaying && Sent(StopTrack)
    {
      isPlaying := false;
      directives := directives + [StopTrack];
    }

    /** A track finished, got stuck or failed on the node, which then reports
        that nothing is playing. */
    method TrackEnded()
      modifies this
      ensures Ended()
    {
      isPlaying := false;
    }

    method SetPause(paused: bool)
      modifies this
      ensures isPaused == paused && isPlaying == old(isPlaying) && isConnected == old(isConnected)
      ensures volume == old(volume) && directives == old(directives) + [SetPauseTo(paused)]
    {
      isPaused := paused;
      directives := directives + [SetPauseTo(paused)];
    }

    method Seek(millis: nat)
      modifies this
      ensures isPlaying == old(isPlaying) && Sent(SeekTo(millis))
    {
      directives := directives + [SeekTo(millis)];
    }

    /** The commands only ever send levels within 0..150. */
    method SetVolume(level: int)
      requires 0 <= level <= Volume.MaxLevel
      modifies this
      ensures Valid() && volume == level
      ensures isPlaying == old(isPlaying) && isPaused == old(isPaused) && isConnected == old(isConnected)
      ensures directives == old(directives) + [SetVolumeTo(level)]
    {
      volume := level;
      directives := directives + [SetVolumeTo(level)];
    }
  }
}
