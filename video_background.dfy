/** VideoBackground: the optional background video that follows App's time. The
    video element is rendered only while the static background is not; it is moved
    when it drifts more than 0.3 s from App's time, played only while shown, playing
    and within its own duration, and it reports its own time, duration and end to
    App through the same handlers as the audio. */
module VideoBackground {
  import opened Music

  /** Drift in seconds beyond which the video is moved to App's time. */
  const VideoSeekTolerance: real := 0.3

  /** The props App passes. */
  datatype VideoProps = VideoProps(
    track: Option<Track>,
    isPlaying: bool,
    currentTime: real,
    showVideo: bool,
    volume: real,
    playbackSpeed: real)

  /** The static background is rendered when there is no video source, the video is
      hidden, or App's time is past the video's duration. */
  predicate StaticBackground(track: Option<Track>, showVideo: bool, currentTime: real, videoDuration: real)
  {
    track.None? || !HasVideo(track.value) || !showVideo || currentTime > videoDuration
  }

  /** The guard of the sync effect, for an element that is present (`mounted`). */
  predicate ShouldSeek(mounted: bool, showVideo: bool, videoDuration: real, position: real, currentTime: real)
  {
    mounted && showVideo && videoDuration != 0.0 && currentTime <= videoDuration &&
    Abs(position - currentTime) > VideoSeekTolerance
  }

  /** The command of the play effect for a present element. */
  function PlayOrPause(showVideo: bool, isPlaying: bool, currentTime: real, videoDuration: real): (c: MediaCommand)
    ensures c == Play <==> showVideo && isPlaying && currentTime <= videoDuration
    ensures c != Load
  {
    if showVideo && isPlaying && currentTime <= videoDuration then Play else Pause
  }

  /** `video.duration || 0`: a missing (or not-a-number) duration counts as 0. */
  function MetadataDuration(d: Option<real>): (r: real)
    ensures d.None? ==> r == 0.0
    ensures d.Some? ==> r == d.value
  {
    if d.Some? then d.value else 0.0
  }

  /** Once App's time is past the video's duration the video is neither moved nor played
      and the static background shows. */
  lemma PastTheEnd(p: VideoProps, mounted: bool, videoDuration: real, position: real)
    requires p.currentTime > videoDuration
    ensures !ShouldSeek(mounted, p.showVideo, videoDuration, position, p.currentTime)
    ensures PlayOrPause(p.showVideo, p.isPlaying, p.currentTime, videoDuration) == Pause
    ensures StaticBackground(p.track, p.showVideo, p.currentTime, videoDuration)
  {
  }

  /** While the video is on screen, the show and duration guards of the effects already
      hold: it is moved exactly when its duration is known and it drifts more than 0.3 s,
      and it plays exactly when App is playing. Conversely the video is told to play
      only while it is on screen or the track has no video. */
  lemma RenderedGuards(p: VideoProps, videoDuration: real, position: real)
    ensures !StaticBackground(p.track, p.showVideo, p.currentTime, videoDuration) ==>
      (ShouldSeek(true, p.showVideo, videoDuration, position, p.currentTime) <==>
        videoDuration != 0.0 && Abs(position - p.currentTime) > VideoSeekTolerance) &&
      (PlayOrPause(p.showVideo, p.isPlaying, p.currentTime, videoDuration) == Play <==> p.isPlaying)
    ensures (PlayOrPause(p.showVideo, p.isPlaying, p.currentTime, videoDuration) == Play &&
             p.track.Some? && HasVideo(p.track.value)) ==>
            !StaticBackground(p.track, p.showVideo, p.currentTime, videoDuration)
  {
  }

  /** Right after the video has been moved to App's time, the same time moves nothing. */
  lemma SeekSettles(mounted: bool, showVideo: bool, videoDuration: real, t: real)
    ensures !ShouldSeek(mounted, showVideo, videoDuration, t, t)
  {
  }

  /** The events the video element raises besides its metadata. */
  datatype VideoEvent = VideoTimeUpdate | VideoEnded

  class VideoFollower {
    /** `videoRef.current !== null`: the `<video>` is rendered. */
    var mounted: bool
    /** The `src` of the rendered element. */
    var src: string
    /** The element's `currentTime`, `duration`, `volume` and `playbackRate`. */
    var position: real
    var elementDuration: Option<real>
    var volume: real
    var playbackRate: real
    /** Every play and pause command issued to the element, oldest first. */
    var commands: seq<MediaCommand>
    /** The `videoDuration` React state. */
    var videoDuration: real

    constructor ()
      ensures !mounted && videoDuration == 0.0 && commands == []
      ensures position == 0.0 && elementDuration == None && volume == 1.0 && playbackRate == 1.0
    {
      mounted, src, videoDuration, commands := false, "", 0.0, [];
      position, elementDuration, volume, playbackRate := 0.0, None, 1.0, 1.0;
    }

    /** React's commit: the element is rendered exactly when the static background is not.
        A newly created element starts at 0 with default volume and rate and no metadata;
        a new source on a kept element restarts it at 0 without metadata and at the
        default rate, keeping its volume. */
    method Commit(p: VideoProps)
      modifies this
      ensures mounted == !StaticBackground(p.track, p.showVideo, p.currentTime, old(videoDuration))
      ensures mounted ==> src == p.track.value.videoBgSrc.value
      ensures mounted && !old(mounted) ==>
        position == 0.0 && elementDuration == None && volume == 1.0 && playbackRate == 1.0
      ensures mounted && old(mounted) && src != old(src) ==>
        position == 0.0 && elementDuration == None && volume == old(volume) && playbackRate == 1.0
      ensures (!mounted || (old(mounted) && src == old(src))) ==>
        position == old(position) && elementDuration == old(elementDuration) &&
        volume == old(volume) && playbackRate == old(playbackRate)
      ensures videoDuration == old(videoDuration) && commands == old(commands)
    {
      var show := !StaticBackground(p.track, p.showVideo, p.currentTime, videoDuration);
      if show {
        var newSrc := p.track.value.videoBgSrc.value;
        if !mounted {
          position, elementDuration, volume, playbackRate := 0.0, None, 1.0, 1.0;
        } else if newSrc != src {
          position, elementDuration, playbackRate := 0.0, None, 1.0;
        }
        src := newSrc;
      }
      mounted := show;
    }

    /** The browser: playback advances the element's position. */
    method Progress(t: real)
      modifies this
      ensures position == (if mounted then t else old(position))
      ensures mounted == old(mounted) && src == old(src) && elementDuration == old(elementDuration)
      ensures volume == old(volume) && playbackRate == old(playbackRate)
      ensures commands == old(commands) && videoDuration == old(videoDuration)
    {
      if mounted {
        position := t;
      }
    }

    /** The `loadedmetadata` listener: the element's duration (0 if missing) becomes
        `videoDuration` and the same value is reported to App. */
    method LoadedMetadata(d: Option<real>) returns (cb: Option<Callback>)
      modifies this
      ensures mounted ==> elementDuration == d && videoDuration == MetadataDuration(d)
      ensures mounted ==> cb == Some(OnDurationChange(videoDuration))
      ensures !mounted ==> cb == None && elementDuration == old(elementDuration) && videoDuration == old(videoDuration)
      ensures mounted == old(mounted) && src == old(src) && position == old(position)
      ensures volume == old(volume) && playbackRate == old(playbackRate) && commands == old(commands)
    {
      if mounted {
        elementDuration := d;
        videoDuration := MetadataDuration(d);
        cb := Some(OnDurationChange(videoDuration));
      } else {
        cb := None;
      }
    }

    /** The `timeupdate` and `ended` listeners: unlike the audio's, the time update is
        never held back. */
    method Dispatch(e: VideoEvent) returns (cb: Option<Callback>)
      ensures !mounted ==> cb == None
      ensures mounted && e == VideoTimeUpdate ==> cb == Some(OnTimeUpdate(position))
      ensures mounted && e == VideoEnded ==> cb == Some(OnEnded)
    {
      if !mounted {
        cb := None;
      } else if e == VideoTimeUpdate {
        cb := Some(OnTimeUpdate(position));
      } else {
        cb := Some(OnEnded);
      }
    }

    /** The `[currentTime, showVideo, videoDuration]` effect. */
    method SyncEffect(p: VideoProps)
      modifies this
      ensures position ==
        (if ShouldSeek(old(mounted), p.showVideo, old(videoDuration), old(position), p.currentTime)
         then p.currentTime else old(position))
      ensures mounted == old(mounted) && src == old(src) && elementDuration == old(elementDuration)
      ensures volume == old(volume) && playbackRate == old(playbackRate)
      ensures commands == old(commands) && videoDuration == old(videoDuration)
    {
      if !mounted || !p.showVideo {
        return;
      }
      if videoDuration == 0.0 {
        return;
      }
      if p.currentTime <= videoDuration && Abs(position - p.currentTime) > VideoSeekTolerance {
        position := p.currentTime;
      }
    }

    /** The `[isPlaying, showVideo, currentTime, videoDuration]` effect. */
    method PlayEffect(p: VideoProps)
      modifies this
      ensures commands == old(commands) +
        (if old(mounted) then [PlayOrPause(p.showVideo, p.isPlaying, p.currentTime, old(videoDuration))] else [])
      ensures mounted == old(mounted) && src == old(src) && position == old(position)
      ensures elementDuration == old(elementDuration) && volume == old(volume) && playbackRate == old(playbackRate)
      ensures videoDuration == old(videoDuration)
    {
      if mounted {
        if p.showVideo && p.isPlaying && p.currentTime <= videoDuration {
          commands := commands + [Play];
        } else {
          commands := commands + [Pause];
        }
      }
    }

    /** The `[volume, playbackSpeed]` effect. */
    method SettingsEffect(p: VideoProps)
      modifies this
      ensures old(mounted) ==> volume == p.volume && playbackRate == p.playbackSpeed
      ensures !old(mounted) ==> volume == old(volume) && playbackRate == old(playbackRate)
      ensures mounted == old(mounted) && src == old(src) && position == old(position)
      ensures elementDuration == old(elementDuration) && commands == old(commands)
      ensures videoDuration == old(videoDuration)
    {
      if mounted {
        volume := p.volume;
        playbackRate := p.playbackSpeed;
      }
    }
  }

  /** The settings effect runs only when the volume or the speed changes, so a video that
      is hidden and shown again comes back as a new element at the default rate, while
      the audio keeps the chosen speed. Here the speed is 2, the video is hidden and
      shown again with nothing else changed. */
  method RemountLosesSpeed(track: Track) returns (mounted: bool, rate: real)
    requires HasVideo(track)
    ensures mounted && rate == 1.0
  {
    var v := new VideoFollower();
    var shown := VideoProps(Some(track), true, 0.0, true, 0.7, 2.0);
    v.Commit(shown);
    v.SettingsEffect(shown);
    assert v.playbackRate == 2.0;
    var hidden := shown.(showVideo := false);
    v.Commit(hidden);
    v.SyncEffect(hidden);
    v.PlayEffect(hidden);
    v.Commit(shown);
    v.SyncEffect(shown);
    v.PlayEffect(shown);
    mounted, rate := v.mounted, v.playbackRate;
  }

  /** A video whose metadata has not arrived when App's time passes 0 is replaced by the
      static background before its `loadedmetadata` can ever be handled, and it stays
      static: `videoDuration` keeps its initial 0. */
  method LateMetadataStaysStatic(track: Track, t: real, d: real) returns (mounted: bool, cb: Option<Callback>)
    requires HasVideo(track) && t > 0.0
    ensures !mounted && cb == None
  {
    var v := new VideoFollower();
    var atStart := VideoProps(Some(track), true, 0.0, true, 0.7, 1.0);
    v.Commit(atStart);
    var later := atStart.(currentTime := t);
    v.Commit(later);
    cb := v.LoadedMetadata(Some(d));
    v.Commit(later);
    mounted := v.mounted;
  }

  /** For the same reason a video on screen falls back to the default rate at every
      change to a track with another video: the new source resets the element and the
      settings effect does not run again while volume and speed stay as they are. */
  method TrackChangeLosesSpeed(a: Track, b: Track) returns (mounted: bool, rate: real)
    requires HasVideo(a) && HasVideo(b) && a.videoBgSrc != b.videoBgSrc
    ensures mounted && rate == 1.0
  {
    var v := new VideoFollower();
    var first := VideoProps(Some(a), true, 0.0, true, 0.7, 2.0);
    v.Commit(first);
    v.SettingsEffect(first);
    assert v.playbackRate == 2.0;
    var second := first.(track := Some(b));
    v.Commit(second);
    v.SyncEffect(second);
    v.PlayEffect(second);
    mounted, rate := v.mounted, v.playbackRate;
  }
}
