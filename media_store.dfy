/**
 * The playback store (stores/mediaStore.ts): what is playing, the playback
 * position and length, the volume in [0, 1] with its mute flag, and the
 * season and episode of a show.
 */
module MediaStore {
  import opened Common
  import opened MediaTypes

  /** `Math.max(0, Math.min(1, v))` */
  function Clamp01(v: real): (r: real)
    ensures 0.0 <= r <= 1.0
    ensures 0.0 <= v <= 1.0 ==> r == v
    ensures v < 0.0 ==> r == 0.0
    ensures v > 1.0 ==> r == 1.0
  {
    if 1.0 < v then 1.0 else if v < 0.0 then 0.0 else v
  }

  /** `setVolume` mutes exactly when the requested volume is 0 or below. */
  lemma MutedByVolume(v: real)
    ensures Clamp01(v) == 0.0 <==> v <= 0.0
  {
  }

  class Store {
    var currentMedia: Option<Media>
    var mediaType: Option<MediaType>
    var isPlaying: bool
    var currentTime: real
    var duration: real
    var volume: real
    var isMuted: bool
    var currentSeason: Option<int>
    var currentEpisode: Option<int>

    /** Volume stays within [0, 1]. */
    ghost predicate Valid()
      reads this
    {
      0.0 <= volume <= 1.0
    }

    /** The initial state: nothing loaded, not playing, full volume, not muted. */
    constructor ()
      ensures Valid()
      ensures currentMedia == None && mediaType == None && !isPlaying
      ensures currentTime == 0.0 && duration == 0.0 && volume == 1.0 && !isMuted
      ensures currentSeason == None && currentEpisode == None
    {
      currentMedia := None;
      mediaType := None;
      isPlaying := false;
      currentTime := 0.0;
      duration := 0.0;
      volume := 1.0;
      isMuted := false;
      currentSeason := None;
      currentEpisode := None;
    }

    /** Both arms of the source's `type === 'movie' ? undefined : undefined` clear the show fields. */
    method SetCurrentMedia(media: Media, kind: MediaType)
      requires Valid()
      modifies this
      ensures Valid()
      ensures currentMedia == Some(media) && mediaType == Some(kind)
      ensures currentTime == 0.0 && duration == 0.0 && !isPlaying
      ensures currentSeason == None && currentEpisode == None
      ensures volume == old(volume) && isMuted == old(isMuted)
    {
      currentMedia := Some(media);
      mediaType := Some(kind);
      currentTime := 0.0;
      duration := 0.0;
      isPlaying := false;
      currentSeason := None;
      currentEpisode := None;
    }

    method SetEpisode(season: int, episode: int)
      requires Valid()
      modifies this
      ensures Valid()
      ensures currentSeason == Some(season) && currentEpisode == Some(episode) && currentTime == 0.0
      ensures currentMedia == old(currentMedia) && mediaType == old(mediaType)
      ensures isPlaying == old(isPlaying) && duration == old(duration)
      ensures volume == old(volume) && isMuted == old(isMuted)
    {
      currentSeason := Some(season);
      currentEpisode := Some(episode);
      currentTime := 0.0;
    }

    method SetPlaybackState(playing: bool)
      requires Valid()
      modifies this`isPlaying
      ensures Valid() && isPlaying == playing
    {
      isPlaying := playing;
    }

    method UpdatePlaybackTime(time: real)
      requires Valid()
      modifies this`currentTime
      ensures Valid() && currentTime == time
    {
      currentTime := time;
    }

    method SetDuration(d: real)
      requires Valid()
      modifies this`duration
      ensures Valid() && duration == d
    {
      duration := d;
    }

    method SetVolume(v: real)
      requires Valid()
      modifies this`volume, this`isMuted
      ensures Valid()
      ensures volume == Clamp01(v) && isMuted == (volume == 0.0)
    {
      var clamped := Clamp01(v);
      volume := clamped;
      isMuted := clamped == 0.0;
    }

    method SetMuted(muted: bool)
      requires Valid()
      modifies this`isMuted
      ensures Valid() && isMuted == muted
    {
      isMuted := muted;
    }

    /** Unloads the media; volume and mute survive. */
    method ClearMedia()
      requires Valid()
      modifies this
      ensures Valid()
      ensures currentMedia == None && mediaType == None && !isPlaying
      ensures currentTime == 0.0 && duration == 0.0
      ensures currentSeason == None && currentEpisode == None
      ensures volume == old(volume) && isMuted == old(isMuted)
    {
      currentMedia := None;
      mediaType := None;
      isPlaying := false;
      currentTime := 0.0;
      duration := 0.0;
      currentSeason := None;
      currentEpisode := None;
    }
  }
}
