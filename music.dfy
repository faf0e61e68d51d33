/** Data model of the player: lyric lines, tracks, the player state record, and
    the commands and callbacks exchanged between the media components and App. */
module Music {

  datatype Option<+T> = None | Some(value: T)

  /** One timed line of a song's lyrics; `time` is in seconds. */
  datatype LyricLine = LyricLine(time: real, text: string)

  /** A catalog entry. `videoBgSrc` is optional; an empty string counts as absent,
      exactly as JavaScript's truthiness test treats it. */
  datatype Track = Track(
    id: int,
    title: string,
    artist: string,
    album: string,
    albumArtUrl: string,
    audioSrc: string,
    videoBgSrc: Option<string>,
    lyrics: seq<LyricLine>)

  /** True when the track has a usable video background source (`track.videoBgSrc` is truthy). */
  predicate HasVideo(t: Track)
  {
    t.videoBgSrc.Some? && t.videoBgSrc.value != ""
  }

  /** The single record App keeps in React state. */
  datatype PlayerState = PlayerState(
    currentTrack: Option<Track>,
    isPlaying: bool,
    currentTime: real,
    duration: real,
    volume: real,
    isMuted: bool,
    isShuffled: bool,
    isRepeating: bool,
    playbackSpeed: real,
    showVideo: bool)

  /** A command a component issues to a media element. */
  datatype MediaCommand = Load | Play | Pause

  /** The `onTimeUpdate`, `onDurationChange` and `onEnded` callbacks a media component calls. */
  datatype Callback = OnTimeUpdate(time: real) | OnDurationChange(duration: real) | OnEnded

  /** Absolute value on reals, as `Math.abs`. */
  function Abs(x: real): (r: real)
    ensures r >= 0.0 && (r == x || r == -x)
  {
    if x < 0.0 then -x else x
  }
}
