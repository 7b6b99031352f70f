/** The music cog's command handlers, as far as they decide anything about
    the player's state, and its track-end listener. Each handler takes the
    guild's player; finding that player and replying in the chat are not
    modelled. */
module MusicCog {
  import opened Errors
  import opened Queues
  import opened Players
  import Volume
  import Seek

  /** `on_player_stop`, run for a finished, stuck or failed track: the track
      no longer plays; then under ONE the current track plays again, and
      otherwise the queue advances and plays the next track if there is one.
      When nothing follows, the player is left idle, so a later `add_tracks`
      starts playback again. */
  method OnPlayerStop(p: Player) returns (r: Result<()>)
    modifies p, p.queue
    ensures old(p.queue.repeatMode) == One ==>
      var o := PlayOutcome(old(p.queue.State()).CurrentTrack());
      && unchanged(p.queue)
      && if o.Ok? then r == Ok(()) && p.isPlaying && p.Sent(PlayTrack(o.value))
         else r == Err(o.error) && p.Ended()
    ensures old(p.queue.repeatMode) != One ==>
      var next := old(p.queue.State()).NextTrack();
      && r == Ok(())
      && p.queue.State() == next.1
      && if next.0.Ok? && next.0.value.Some? then p.isPlaying && p.Sent(PlayTrack(next.0.value.value))
         else p.Ended()
  {
    p.TrackEnded();
    if p.queue.repeatMode == One {
      r := p.RepeatTrack();
    } else {
      p.Advance();
      r := Ok(());
    }
  }

  /** `play_command`: connects first if needed (to the caller's channel
      only). Without a query it resumes playback; with one, `found` is what
      the search returned for it and `choice` the outcome of the prompt. */
  method PlayCommand(p: Player, voice: Option<VoiceState>, query: Option<string>,
                     found: SearchResult, choice: Option<nat>) returns (r: Result<()>)
    requires choice.Some? ==> choice.value < OptionCount
    modifies p, p.queue
    ensures !old(p.isConnected) && TargetChannel(voice, None).None? ==>
      r == Err(NoVoiceChannel) && unchanged(p) && unchanged(p.queue)
    ensures p.isConnected == (old(p.isConnected) || TargetChannel(voice, None).Some?)
    ensures p.volume == old(p.volume) && p.queue.repeatMode == old(p.queue.repeatMode)
    ensures (old(p.isConnected) || TargetChannel(voice, None).Some?) ==>
      var joined := if old(p.isConnected) then [] else [ConnectTo(TargetChannel(voice, None).value)];
      && (query.None? ==>
            && unchanged(p.queue)
            && p.isPlaying == old(p.isPlaying)
            && (old(p.queue.items) == [] ==>
                  r == Err(QueueIsEmpty) && p.isPaused == old(p.isPaused) && p.directives == old(p.directives) + joined)
            && (old(p.queue.items) != [] ==>
                  r == Ok(()) && !p.isPaused && p.directives == old(p.directives) + joined + [SetPauseTo(false)]))
      && (query.Some? ==>
            var selected := TracksToAdd(found, choice);
            && p.isPaused == old(p.isPaused)
            && (selected.Err? ==>
                  && r == Err(selected.error) && unchanged(p.queue)
                  && p.isPlaying == old(p.isPlaying) && p.directives == old(p.directives) + joined)
            && (selected.Ok? ==>
                  && p.queue.items == old(p.queue.items) + selected.value
                  && p.queue.position == old(p.queue.position)
                  && var o := PlayOutcome(p.queue.State().CurrentTrack());
                     if !old(p.isPlaying) && p.queue.items != [] && o.Ok? then
                       r == Ok(()) && p.isPlaying && p.directives == old(p.directives) + joined + [PlayTrack(o.value)]
                     else
                       && r == (if !old(p.isPlaying) && p.queue.items != [] then Err(o.error) else Ok(()))
                       && p.isPlaying == old(p.isPlaying) && p.directives == old(p.directives) + joined))
  {
    if !p.isConnected {
      var joined := p.Connect(voice, None);
      if joined.Err? {
        return Err(joined.error);
      }
    }
    if query.None? {
      if p.queue.items == [] {
        return Err(QueueIsEmpty);
      }
      p.SetPause(false);
      r := Ok(());
    } else {
      r := p.AddTracks(found, choice);
    }
  }

  /** `pause_command` */
  method PauseCommand(p: Player) returns (r: Result<()>)
    modifies p
    ensures old(p.isPaused) ==> r == Err(PlayerIsAlreadyPaused) && unchanged(p)
    ensures !old(p.isPaused) ==>
      && r == Ok(()) && p.isPaused && p.directives == old(p.directives) + [SetPauseTo(true)]
      && p.isPlaying == old(p.isPlaying) && p.isConnected == old(p.isConnected) && p.volume == old(p.volume)
  {
    if p.isPaused {
      return Err(PlayerIsAlreadyPaused);
    }
    p.SetPause(true);
    r := Ok(());
  }

  /** `stop_command`: clears the queue and stops the track. */
  method StopCommand(p: Player)
    modifies p, p.queue
    ensures p.queue.items == [] && p.queue.position == 0 && p.queue.repeatMode == old(p.queue.repeatMode)
    ensures !p.isPlaying && p.Sent(StopTrack)
  {
    p.queue.Empty();
    p.Stop();
  }

  /** `next_command`: only with upcoming tracks; it stops the track, and the
      track-end event then advances the queue. */
  method NextCommand(p: Player) returns (r: Result<()>)
    modifies p
    ensures var upcoming := old(p.queue.State().Upcoming());
      && (upcoming.Err? ==> r == Err(QueueIsEmpty) && unchanged(p))
      && (upcoming == Ok([]) ==> r == Err(NoMoreTracks) && unchanged(p))
      && (upcoming.Ok? && upcoming.value != [] ==> r == Ok(()) && !p.isPlaying && p.Sent(StopTrack))
  {
    var upcoming := p.queue.State().Upcoming();
    if upcoming.Err? {
      return Err(upcoming.error);
    }
    if upcoming.value == [] {
      return Err(NoMoreTracks);
    }
    p.Stop();
    r := Ok(());
  }

  /** `previous_command`: only with a history; it moves the cursor back by
      two and stops the track, so the advance that follows steps back one. */
  method PreviousCommand(p: Player) returns (r: Result<()>)
    modifies p, p.queue
    ensures var history := old(p.queue.State().History());
      && (history.Err? ==> r == Err(QueueIsEmpty) && unchanged(p) && unchanged(p.queue))
      && (history == Ok([]) ==> r == Err(NoPreviousTracks) && unchanged(p) && unchanged(p.queue))
      && (history.Ok? && history.value != [] ==>
            && r == Ok(())
            && p.queue.State() == old(p.queue.State()).(position := old(p.queue.position) - 2)
            && !p.isPlaying && p.Sent(StopTrack))
  {
    var history := p.queue.State().History();
    if history.Err? {
      return Err(history.error);
    }
    if history.value == [] {
      return Err(NoPreviousTracks);
    }
    p.queue.position := p.queue.position - 2;
    p.Stop();
    r := Ok(());
  }

  /** `shuffle_command` */
  method ShuffleCommand(p: Player) returns (r: Result<()>)
    modifies p.queue
    ensures old(p.queue.items) == [] ==> r == Err(QueueIsEmpty) && unchanged(p.queue)
    ensures old(p.queue.items) != [] ==> r == Ok(()) && IsShuffleOf(old(p.queue.State()), p.queue.items)
    ensures p.queue.position == old(p.queue.position) && p.queue.repeatMode == old(p.queue.repeatMode)
  {
    r := p.queue.Shuffle();
  }

  /** `repeat_command`: accepts only the three tokens, each of which then
      selects its mode. */
  method RepeatCommand(p: Player, token: string) returns (r: Result<()>)
    modifies p.queue
    ensures token !in {OffToken, OneToken, AllToken} ==> r == Err(InvalidRepeatMode) && unchanged(p.queue)
    ensures token in {OffToken, OneToken, AllToken} ==>
      r == Ok(()) && TokenFor(p.queue.repeatMode) == token
      && p.queue.items == old(p.queue.items) && p.queue.position == old(p.queue.position)
  {
    if token !in {OffToken, OneToken, AllToken} {
      return Err(InvalidRepeatMode);
    }
    ghost var before := p.queue.repeatMode;
    p.queue.SetRepeatMode(token);
    TokensSelectModes(before, before, token);
    r := Ok(());
  }

  /** `volume_group`: sets an absolute level within 0..150. */
  method VolumeCommand(p: Player, level: int) returns (r: Result<()>)
    requires p.Valid()
    modifies p
    ensures p.Valid()
    ensures level < 0 ==> r == Err(VolumeTooLow) && unchanged(p)
    ensures level > Volume.MaxLevel ==> r == Err(VolumeTooHigh) && unchanged(p)
    ensures 0 <= level <= Volume.MaxLevel ==>
      && r == Ok(()) && p.volume == level && p.directives == old(p.directives) + [SetVolumeTo(level)]
      && p.isPlaying == old(p.isPlaying) && p.isPaused == old(p.isPaused) && p.isConnected == old(p.isConnected)
  {
    var checked := Volume.CheckedLevel(level);
    if checked.Err? {
      return Err(checked.error);
    }
    p.SetVolume(checked.value);
    r := Ok(());
  }

  /** `volume_up_command` */
  method VolumeUpCommand(p: Player) returns (r: Result<()>)
    requires p.Valid()
    modifies p
    ensures p.Valid()
    ensures old(p.volume) == Volume.MaxLevel ==> r == Err(MaxVolume) && unchanged(p)
    ensures old(p.volume) < Volume.MaxLevel ==>
      && r == Ok(())
      && p.volume == (if old(p.volume) + Volume.Step < Volume.MaxLevel then old(p.volume) + Volume.Step else Volume.MaxLevel)
      && p.directives == old(p.directives) + [SetVolumeTo(p.volume)]
      && p.isPlaying == old(p.isPlaying) && p.isPaused == old(p.isPaused) && p.isConnected == old(p.isConnected)
  {
    var raised := Volume.Raised(p.volume);
    if raised.Err? {
      return Err(raised.error);
    }
    p.SetVolume(raised.value);
    r := Ok(());
  }

  /** `volume_down_command` */
  method VolumeDownCommand(p: Player) returns (r: Result<()>)
    requires p.Valid()
    modifies p
    ensures p.Valid()
    ensures old(p.volume) == 0 ==> r == Err(MinVolume) && unchanged(p)
    ensures old(p.volume) > 0 ==>
      && r == Ok(())
      && p.volume == (if old(p.volume) - Volume.Step > 0 then old(p.volume) - Volume.Step else 0)
      && p.directives == old(p.directives) + [SetVolumeTo(p.volume)]
      && p.isPlaying == old(p.isPlaying) && p.isPaused == old(p.isPaused) && p.isConnected == old(p.isConnected)
  {
    var lowered := Volume.Lowered(p.volume);
    if lowered.Err? {
      return Err(lowered.error);
    }
    p.SetVolume(lowered.value);
    r := Ok(());
  }

  /** `skipto_command`: for 0 <= index <= length it sets the cursor to
      `index - 2` and stops the track, so the advance that follows lands on
      the `index`-th track (see SkipToLandsOnIndex). */
  method SkipToCommand(p: Player, index: int) returns (r: Result<()>)
    modifies p, p.queue
    ensures old(p.queue.items) == [] ==> r == Err(QueueIsEmpty) && unchanged(p) && unchanged(p.queue)
    ensures old(p.queue.items) != [] && !(0 <= index <= |old(p.queue.items)|) ==>
      r == Err(NoMoreTracks) && unchanged(p) && unchanged(p.queue)
    ensures old(p.queue.items) != [] && 0 <= index <= |old(p.queue.items)| ==>
      && r == Ok(())
      && p.queue.State() == old(p.queue.State()).(position := index - 2)
      && !p.isPlaying && p.Sent(StopTrack)
  {
    if p.queue.items == [] {
      return Err(QueueIsEmpty);
    }
    if !(0 <= index <= |p.queue.items|) {
      return Err(NoMoreTracks);
    }
    p.queue.position := index - 2;
    p.Stop();
    r := Ok(());
  }

  /** `restart_command`: seeks to the start of the track. */
  method RestartCommand(p: Player) returns (r: Result<()>)
    modifies p
    ensures old(p.queue.items) == [] ==> r == Err(QueueIsEmpty) && unchanged(p)
    ensures old(p.queue.items) != [] ==> r == Ok(()) && p.isPlaying == old(p.isPlaying) && p.Sent(SeekTo(0))
  {
    if p.queue.items == [] {
      return Err(QueueIsEmpty);
    }
    p.Seek(0);
    r := Ok(());
  }

  /** `seek_command`: an empty queue is reported before a bad time string. */
  method SeekCommand(p: Player, text: string) returns (r: Result<()>)
    modifies p
    ensures old(p.queue.items) == [] ==> r == Err(QueueIsEmpty) && unchanged(p)
    ensures old(p.queue.items) != [] && Seek.ParseSeek(text).Err? ==> r == Err(InvalidTimeString) && unchanged(p)
    ensures old(p.queue.items) != [] && Seek.ParseSeek(text).Ok? ==>
      r == Ok(()) && p.isPlaying == old(p.isPlaying) && p.Sent(SeekTo(Seek.ParseSeek(text).value))
  {
    if p.queue.items == [] {
      return Err(QueueIsEmpty);
    }
    var target := Seek.ParseSeek(text);
    if target.Err? {
      return Err(target.error);
    }
    p.Seek(target.value);
    r := Ok(());
  }

  /** The two-step skip-to: the command sets the cursor and stops the track,
      and, unless the mode is ONE, the track-end event that follows plays the
      `index`-th track (for index 0 the advance returns nothing; see
      SkipToLandsOnIndex). */
  method SkipToThenTrackEnd(p: Player, index: int)
    requires p.queue.items != [] && 1 <= index <= |p.queue.items| && p.queue.repeatMode != One
    modifies p, p.queue
    ensures p.queue.position == index - 1 && p.queue.items == old(p.queue.items)
    ensures p.isPlaying && p.directives == old(p.directives) + [StopTrack, PlayTrack(old(p.queue.items)[index - 1])]
  {
    var skipped := SkipToCommand(p, index);
    SkipToLandsOnIndex(p.queue.State(), index);
    var ended := OnPlayerStop(p);
  }

  /** Under ONE the track-end event replays the track under the cursor
      instead of advancing, so skip-to `index` from 2 up plays the track
      before the requested one. */
  method SkipToThenTrackEndUnderRepeatOne(p: Player, index: int)
    requires p.queue.items != [] && 2 <= index <= |p.queue.items| && p.queue.repeatMode == One
    modifies p, p.queue
    ensures p.queue.position == index - 2 && p.queue.items == old(p.queue.items)
    ensures p.isPlaying && p.directives == old(p.directives) + [StopTrack, PlayTrack(old(p.queue.items)[index - 2])]
  {
    var skipped := SkipToCommand(p, index);
    var ended := OnPlayerStop(p);
  }

  /** A track ends with nothing after it (mode NONE, cursor on the last
      track); the player is left idle, so adding a track afterwards plays
      that track at once. */
  method TrackEndThenAdd(p: Player, t: Track)
    requires p.queue.items != [] && p.queue.position == |p.queue.items| - 1 && p.queue.repeatMode == Off
    modifies p, p.queue
    ensures p.queue.items == old(p.queue.items) + [t] && p.queue.position == |old(p.queue.items)|
    ensures p.isPlaying && p.directives == old(p.directives) + [PlayTrack(t)]
  {
    var ended := OnPlayerStop(p);
    var added := p.AddTracks(Results([t]), None);
  }
}
