/** The transport state of App: the player state record, the index of the current
    track in the catalog, and the handlers that are the only code changing them.
    Each handler's `prev => ({ ...prev, ... })` updater is a function here; the
    class Player holds the React state and applies them. */
module App {
  import opened Music
  import KeyboardShortcuts
  import MediaPlayer
  import VideoBackground

  /** The initial `useState` value. */
  const InitialState := PlayerState(
    currentTrack := None,
    isPlaying := false,
    currentTime := 0.0,
    duration := 0.0,
    volume := 0.7,
    isMuted := false,
    isShuffled := false,
    isRepeating := false,
    playbackSpeed := 1.0,
    showVideo := true)

  // ---------------------------------------------------------------- indices

  /** JavaScript's `%` on integers: the remainder keeps the sign of the dividend. */
  function JsRem(a: int, n: int): (r: int)
    requires n > 0
    ensures a >= 0 ==> r == a % n
    ensures -n < r < n
  {
    if a >= 0 then a % n else -((-a) % n)
  }

  /** `(currentTrackIndex + 1) % tracks.length`. */
  function NextIndex(i: int, n: int): int
    requires n > 0
  {
    JsRem(i + 1, n)
  }

  /** `currentTrackIndex === 0 ? tracks.length - 1 : currentTrackIndex - 1`. */
  function PreviousIndex(i: int, n: int): int
  {
    if i == 0 then n - 1 else i - 1
  }

  /** `Math.floor(random * tracks.length)` for a draw `random` of `Math.random()`. */
  function RandomIndex(random: real, n: nat): int
  {
    (random * n as real).Floor
  }

  /** `tracks.findIndex(t => t.id === id)`: the first position holding the id, or -1. */
  function FindIndex(tracks: seq<Track>, id: int): (r: int)
    ensures -1 <= r < |tracks|
    ensures r >= 0 ==> tracks[r].id == id && forall k :: 0 <= k < r ==> tracks[k].id != id
    ensures r == -1 <==> forall k :: 0 <= k < |tracks| ==> tracks[k].id != id
  {
    if tracks == [] then -1
    else if tracks[0].id == id then 0
    else
      var r := FindIndex(tracks[1..], id);
      if r == -1 then -1 else r + 1
  }

  /** `tracks[j]`, which is `undefined` outside the catalog. */
  function TrackAt(tracks: seq<Track>, j: int): (r: Option<Track>)
    ensures r.Some? <==> 0 <= j < |tracks|
    ensures r.Some? ==> r.value == tracks[j]
  {
    if 0 <= j < |tracks| then Some(tracks[j]) else None
  }

  /** No two catalog entries share an id. */
  ghost predicate UniqueIds(tracks: seq<Track>)
  {
    forall i, j :: 0 <= i < j < |tracks| ==> tracks[i].id != tracks[j].id
  }

  /** Without shuffle, next and previous step through the catalog with wrap-around at
      both ends and are inverse to each other. */
  lemma {:induction false} WrapAround(i: int, n: int)
    requires 0 <= i < n
    ensures 0 <= NextIndex(i, n) < n && 0 <= PreviousIndex(i, n) < n
    ensures NextIndex(i, n) == (if i == n - 1 then 0 else i + 1)
    ensures PreviousIndex(i, n) == (if i == 0 then n - 1 else i - 1)
    ensures NextIndex(PreviousIndex(i, n), n) == i && PreviousIndex(NextIndex(i, n), n) == i
  {
    if i == n - 1 {
      assert (i + 1) % n == 0;
    } else {
      assert (i + 1) % n == i + 1;
    }
    if i == 0 {
      assert n % n == 0;
    } else {
      assert i % n == i;
    }
  }

  /** The shuffled draw is always a catalog position, and every position, the
      current one included, is drawn for some value of `Math.random()`. */
  lemma RandomIndexRange(random: real, n: nat, j: int)
    requires n > 0
    ensures 0.0 <= random < 1.0 ==> 0 <= RandomIndex(random, n) < n
    ensures 0 <= j < n ==> var r := j as real / n as real; 0.0 <= r < 1.0 && RandomIndex(r, n) == j
  {
    if 0.0 <= random < 1.0 {
      assert 0.0 <= random * n as real < n as real;
    }
    if 0 <= j < n {
      var r := j as real / n as real;
      assert r * n as real == j as real;
    }
  }

  /** A selected track that is in a catalog without duplicate ids is found at its own position. */
  lemma FindIndexOfMember(tracks: seq<Track>, track: Track)
    requires track in tracks && UniqueIds(tracks)
    ensures 0 <= FindIndex(tracks, track.id) < |tracks| && tracks[FindIndex(tracks, track.id)] == track
  {
    var k :| 0 <= k < |tracks| && tracks[k] == track;
    var r := FindIndex(tracks, track.id);
    assert r != -1;
  }

  // ---------------------------------------------------------------- updaters

  /** `handleTrackSelect`'s updater. */
  function Selected(s: PlayerState, track: Track): PlayerState
  {
    s.(currentTrack := Some(track), isPlaying := true, currentTime := 0.0)
  }

  /** The updater of `handleNext` and `handlePrevious` for the chosen catalog entry. */
  function MovedTo(s: PlayerState, track: Option<Track>): PlayerState
  {
    s.(currentTrack := track, currentTime := 0.0, isPlaying := true)
  }

  /** `handleEnded`'s updater when repeat is on. */
  function Restarted(s: PlayerState): PlayerState
  {
    s.(currentTime := 0.0, isPlaying := true)
  }

  function PlayToggled(s: PlayerState): PlayerState { s.(isPlaying := !s.isPlaying) }
  function MuteToggled(s: PlayerState): PlayerState { s.(isMuted := !s.isMuted) }
  function ShuffleToggled(s: PlayerState): PlayerState { s.(isShuffled := !s.isShuffled) }
  function RepeatToggled(s: PlayerState): PlayerState { s.(isRepeating := !s.isRepeating) }
  function VideoToggled(s: PlayerState): PlayerState { s.(showVideo := !s.showVideo) }

  /** `handleVolumeChange`'s updater: the volume is stored and zero means muted. */
  function VolumeSet(s: PlayerState, v: real): PlayerState
  {
    s.(volume := v, isMuted := v == 0.0)
  }

  /** The updater shared by `handleSeek` and `handleTimeUpdate`. */
  function TimeSet(s: PlayerState, t: real): PlayerState { s.(currentTime := t) }

  function DurationSet(s: PlayerState, d: real): PlayerState { s.(duration := d) }

  function SpeedSet(s: PlayerState, r: real): PlayerState { s.(playbackSpeed := r) }

  /** The volume App hands to the audio and the video: `isMuted ? 0 : volume`. */
  function EffectiveVolume(s: PlayerState): real
  {
    if s.isMuted then 0.0 else s.volume
  }

  /** The keyboard's volume-up level, `Math.min(1, volume + 0.1)`. */
  function VolumeUpLevel(v: real): real
  {
    if v + 0.1 < 1.0 then v + 0.1 else 1.0
  }

  /** The keyboard's volume-down level, `Math.max(0, volume - 0.1)`. */
  function VolumeDownLevel(v: real): real
  {
    if v - 0.1 > 0.0 then v - 0.1 else 0.0
  }

  /** Selecting a track loads it from position 0 and plays it; nothing else changes. */
  lemma SelectEffect(s: PlayerState, track: Track)
    ensures var r := Selected(s, track);
            && r.currentTrack == Some(track) && r.isPlaying && r.currentTime == 0.0
            && r.(currentTrack := s.currentTrack, isPlaying := s.isPlaying, currentTime := s.currentTime) == s
  {
  }

  /** Moving to another catalog entry restarts from 0 and plays; nothing else changes. */
  lemma MoveEffect(s: PlayerState, track: Option<Track>)
    ensures var r := MovedTo(s, track);
            && r.currentTrack == track && r.isPlaying && r.currentTime == 0.0
            && r.(currentTrack := s.currentTrack, isPlaying := s.isPlaying, currentTime := s.currentTime) == s
  {
  }

  /** Each toggle negates exactly its own flag, so toggling twice restores the state. */
  lemma TogglesInvolutive(s: PlayerState)
    ensures PlayToggled(PlayToggled(s)) == s && PlayToggled(s).isPlaying != s.isPlaying
    ensures MuteToggled(MuteToggled(s)) == s && MuteToggled(s).isMuted != s.isMuted
    ensures ShuffleToggled(ShuffleToggled(s)) == s && ShuffleToggled(s).isShuffled != s.isShuffled
    ensures RepeatToggled(RepeatToggled(s)) == s && RepeatToggled(s).isRepeating != s.isRepeating
    ensures VideoToggled(VideoToggled(s)) == s && VideoToggled(s).showVideo != s.showVideo
    ensures PlayToggled(s).(isPlaying := s.isPlaying) == s && VideoToggled(s).(showVideo := s.showVideo) == s
    ensures ShuffleToggled(s).(isShuffled := s.isShuffled) == s && RepeatToggled(s).(isRepeating := s.isRepeating) == s
  {
  }

  /** Setting the volume mutes exactly at 0, so raising it from 0 unmutes; muting never
      touches the stored volume and muting twice restores the effective volume. */
  lemma VolumeAndMute(s: PlayerState, v: real)
    ensures VolumeSet(s, v).volume == v && (VolumeSet(s, v).isMuted <==> v == 0.0)
    ensures EffectiveVolume(VolumeSet(s, v)) == v
    ensures MuteToggled(s).volume == s.volume
    ensures EffectiveVolume(MuteToggled(MuteToggled(s))) == EffectiveVolume(s)
    ensures EffectiveVolume(MuteToggled(VolumeSet(s, 0.5))) == 0.0
    ensures EffectiveVolume(MuteToggled(MuteToggled(VolumeSet(s, 0.5)))) == 0.5
  {
  }

  /** The keyboard's volume steps never leave [0, 1] once inside it; volume-down from
      at most 0.1 mutes and volume-up always unmutes. */
  lemma KeyboardVolumeBounds(s: PlayerState)
    ensures VolumeUpLevel(s.volume) <= 1.0 && VolumeDownLevel(s.volume) >= 0.0
    ensures 0.0 <= s.volume <= 1.0 ==>
      0.0 <= VolumeUpLevel(s.volume) <= 1.0 && 0.0 <= VolumeDownLevel(s.volume) <= 1.0
    ensures s.volume <= 0.1 ==> VolumeSet(s, VolumeDownLevel(s.volume)).isMuted
    ensures s.volume >= 0.0 ==> !VolumeSet(s, VolumeUpLevel(s.volume)).isMuted
  {
  }

  /** Seek, time and duration updates store their argument unclamped and change nothing else. */
  lemma StoresUnclamped(s: PlayerState, x: real)
    ensures TimeSet(s, x).currentTime == x && TimeSet(s, x).(currentTime := s.currentTime) == s
    ensures DurationSet(s, x).duration == x && DurationSet(s, x).(duration := s.duration) == s
    ensures SpeedSet(s, x).playbackSpeed == x && SpeedSet(s, x).(playbackSpeed := s.playbackSpeed) == s
  {
  }

  // ---------------------------------------------------------------- props

  /** The props App renders MediaPlayer with. */
  function AudioPropsOf(s: PlayerState): MediaPlayer.AudioProps
  {
    MediaPlayer.AudioProps(s.currentTrack, s.isPlaying, s.currentTime, s.duration,
                           EffectiveVolume(s), s.playbackSpeed, s.showVideo)
  }

  /** The props App renders VideoBackground with. */
  function VideoPropsOf(s: PlayerState): VideoBackground.VideoProps
  {
    VideoBackground.VideoProps(s.currentTrack, s.isPlaying, s.currentTime, s.showVideo,
                               EffectiveVolume(s), s.playbackSpeed)
  }

  /** Audio and video are always handed the same speed, the same effective volume
      (0 while muted) and the same time. */
  lemma SameSettings(s: PlayerState)
    ensures AudioPropsOf(s).playbackSpeed == VideoPropsOf(s).playbackSpeed == s.playbackSpeed
    ensures AudioPropsOf(s).volume == VideoPropsOf(s).volume == (if s.isMuted then 0.0 else s.volume)
    ensures AudioPropsOf(s).currentTime == VideoPropsOf(s).currentTime == s.currentTime
  {
  }

  // ---------------------------------------------------------------- the component

  class Player {
    /** The static catalog. */
    const tracks: seq<Track>
    var state: PlayerState
    var currentTrackIndex: int
    /** Whether the now-playing view is shown instead of the track list. */
    var showPlayer: bool

    ghost predicate Valid()
      reads this
    {
      |tracks| > 0
    }

    /** The index is a catalog position and a loaded track is the one at that position. */
    ghost predicate Consistent()
      reads this
    {
      0 <= currentTrackIndex < |tracks| &&
      (state.currentTrack.Some? ==> state.currentTrack.value == tracks[currentTrackIndex])
    }

    /** The index `handleNext` moves to for a draw `random`. */
    function NextTarget(random: real): int
      reads this
      requires Valid()
    {
      if state.isShuffled then RandomIndex(random, |tracks|) else NextIndex(currentTrackIndex, |tracks|)
    }

    /** The index `handlePrevious` moves to for a draw `random`. */
    function PreviousTarget(random: real): int
      reads this
    {
      if state.isShuffled then RandomIndex(random, |tracks|) else PreviousIndex(currentTrackIndex, |tracks|)
    }

    constructor (catalog: seq<Track>)
      requires |catalog| > 0
      ensures Valid() && Consistent()
      ensures tracks == catalog && state == InitialState && currentTrackIndex == 0 && !showPlayer
    {
      tracks := catalog;
      state := InitialState;
      currentTrackIndex := 0;
      showPlayer := false;
    }

    /** `handleTrackSelect`: the index becomes the catalog position of the track's id
        (-1 if absent) and the now-playing view opens. */
    method TrackSelect(track: Track)
      requires Valid()
      modifies this
      ensures Valid()
      ensures state == Selected(old(state), track)
      ensures currentTrackIndex == FindIndex(tracks, track.id)
      ensures showPlayer
      ensures track in tracks && UniqueIds(tracks) ==> Consistent()
    {
      currentTrackIndex := FindIndex(tracks, track.id);
      state := Selected(state, track);
      showPlayer := true;
      if track in tracks && UniqueIds(tracks) {
        FindIndexOfMember(tracks, track);
      }
    }

    /** `handlePlayPause`; it toggles even when no track is loaded. */
    method PlayPause()
      modifies this
      ensures state == PlayToggled(old(state))
      ensures currentTrackIndex == old(currentTrackIndex) && showPlayer == old(showPlayer)
      ensures old(Consistent()) ==> Consistent()
    {
      state := PlayToggled(state);
    }

    /** `handleNext`: a random position when shuffled, otherwise the next one with wrap-around. */
    method Next(random: real)
      requires Valid() && 0.0 <= random < 1.0
      modifies this
      ensures Valid()
      ensures currentTrackIndex == old(NextTarget(random))
      ensures state == MovedTo(old(state), TrackAt(tracks, currentTrackIndex))
      ensures showPlayer == old(showPlayer)
      ensures old(Consistent()) ==> Consistent()
    {
      var nextIndex;
      if state.isShuffled {
        nextIndex := RandomIndex(random, |tracks|);
        RandomIndexRange(random, |tracks|, 0);
      } else {
        nextIndex := NextIndex(currentTrackIndex, |tracks|);
        if 0 <= currentTrackIndex < |tracks| {
          WrapAround(currentTrackIndex, |tracks|);
        }
      }
      currentTrackIndex := nextIndex;
      state := MovedTo(state, TrackAt(tracks, nextIndex));
    }

    /** `handlePrevious`: a random position when shuffled, otherwise the previous one with wrap-around. */
    method Previous(random: real)
      requires Valid() && 0.0 <= random < 1.0
      modifies this
      ensures Valid()
      ensures currentTrackIndex == old(PreviousTarget(random))
      ensures state == MovedTo(old(state), TrackAt(tracks, currentTrackIndex))
      ensures showPlayer == old(showPlayer)
      ensures old(Consistent()) ==> Consistent()
    {
      var prevIndex;
      if state.isShuffled {
        prevIndex := RandomIndex(random, |tracks|);
        RandomIndexRange(random, |tracks|, 0);
      } else {
        prevIndex := PreviousIndex(currentTrackIndex, |tracks|);
        if 0 <= currentTrackIndex < |tracks| {
          WrapAround(currentTrackIndex, |tracks|);
        }
      }
      currentTrackIndex := prevIndex;
      state := MovedTo(state, TrackAt(tracks, prevIndex));
    }

    /** `handleVolumeChange`. */
    method VolumeChange(v: real)
      modifies this
      ensures state == VolumeSet(old(state), v)
      ensures currentTrackIndex == old(currentTrackIndex) && showPlayer == old(showPlayer)
      ensures old(Consistent()) ==> Consistent()
    {
      state := VolumeSet(state, v);
    }

    /** `handleMute`. */
    method Mute()
      modifies this
      ensures state == MuteToggled(old(state))
      ensures currentTrackIndex == old(currentTrackIndex) && showPlayer == old(showPlayer)
      ensures old(Consistent()) ==> Consistent()
    {
      state := MuteToggled(state);
    }

    /** `handleShuffleToggle`. */
    method ShuffleToggle()
      modifies this
      ensures state == ShuffleToggled(old(state))
      ensures currentTrackIndex == old(currentTrackIndex) && showPlayer == old(showPlayer)
      ensures old(Consistent()) ==> Consistent()
    {
      state := ShuffleToggled(state);
    }

    /** `handleRepeatToggle`. */
    method RepeatToggle()
      modifies this
      ensures state == RepeatToggled(old(state))
      ensures currentTrackIndex == old(currentTrackIndex) && showPlayer == old(showPlayer)
      ensures old(Consistent()) ==> Consistent()
    {
      state := RepeatToggled(state);
    }

    /** `handleVideoToggle`. */
    method VideoToggle()
      modifies this
      ensures state == VideoToggled(old(state))
      ensures currentTrackIndex == old(currentTrackIndex) && showPlayer == old(showPlayer)
      ensures old(Consistent()) ==> Consistent()
    {
      state := VideoToggled(state);
    }

    /** `handleSeek`: the requested time is stored as given, without clamping. */
    method Seek(t: real)
      modifies this
      ensures state == TimeSet(old(state), t)
      ensures currentTrackIndex == old(currentTrackIndex) && showPlayer == old(showPlayer)
      ensures old(Consistent()) ==> Consistent()
    {
      state := TimeSet(state, t);
    }

    /** `handleSpeedChange`. */
    method SpeedChange(r: real)
      modifies this
      ensures state == SpeedSet(old(state), r)
      ensures currentTrackIndex == old(currentTrackIndex) && showPlayer == old(showPlayer)
      ensures old(Consistent()) ==> Consistent()
    {
      state := SpeedSet(state, r);
    }

    /** `handleTimeUpdate`: whichever media component reports, the time is stored as given. */
    method TimeUpdate(t: real)
      modifies this
      ensures state == TimeSet(old(state), t)
      ensures currentTrackIndex == old(currentTrackIndex) && showPlayer == old(showPlayer)
      ensures old(Consistent()) ==> Consistent()
    {
      state := TimeSet(state, t);
    }

    /** `handleDurationChange`. */
    method DurationChange(d: real)
      modifies this
      ensures state == DurationSet(old(state), d)
      ensures currentTrackIndex == old(currentTrackIndex) && showPlayer == old(showPlayer)
      ensures old(Consistent()) ==> Consistent()
    {
      state := DurationSet(state, d);
    }

    /** `handleEnded`: with repeat on, the same track restarts from 0 and plays;
        otherwise it is exactly `handleNext`. */
    method Ended(random: real)
      requires Valid() && 0.0 <= random < 1.0
      modifies this
      ensures Valid()
      ensures old(state.isRepeating) ==>
        state == Restarted(old(state)) && currentTrackIndex == old(currentTrackIndex)
      ensures !old(state.isRepeating) ==>
        currentTrackIndex == old(NextTarget(random)) &&
        state == MovedTo(old(state), TrackAt(tracks, currentTrackIndex))
      ensures showPlayer == old(showPlayer)
      ensures old(Consistent()) ==> Consistent()
    {
      if state.isRepeating {
        state := Restarted(state);
      } else {
        Next(random);
      }
    }

    /** The back button of the now-playing view. */
    method BackToList()
      modifies this
      ensures !showPlayer && state == old(state) && currentTrackIndex == old(currentTrackIndex)
    {
      showPlayer := false;
    }

    /** The actions wired to the keyboard shortcuts; the two volume keys step the current volume within [0, 1]. */
    method KeyAction(a: KeyboardShortcuts.Action, random: real)
      requires Valid() && 0.0 <= random < 1.0
      modifies this
      ensures Valid()
      ensures a == KeyboardShortcuts.PlayPause ==> state == PlayToggled(old(state))
      ensures a == KeyboardShortcuts.Next ==>
        currentTrackIndex == old(NextTarget(random)) && state == MovedTo(old(state), TrackAt(tracks, currentTrackIndex))
      ensures a == KeyboardShortcuts.Previous ==>
        currentTrackIndex == old(PreviousTarget(random)) && state == MovedTo(old(state), TrackAt(tracks, currentTrackIndex))
      ensures a == KeyboardShortcuts.VolumeUp ==> state == VolumeSet(old(state), VolumeUpLevel(old(state.volume)))
      ensures a == KeyboardShortcuts.VolumeDown ==> state == VolumeSet(old(state), VolumeDownLevel(old(state.volume)))
      ensures a == KeyboardShortcuts.Mute ==> state == MuteToggled(old(state))
      ensures !a.Next? && !a.Previous? ==> currentTrackIndex == old(currentTrackIndex)
      ensures showPlayer == old(showPlayer)
      ensures old(Consistent()) ==> Consistent()
    {
      match a
      case PlayPause => PlayPause();
      case Next => Next(random);
      case Previous => Previous(random);
      case VolumeUp => VolumeChange(VolumeUpLevel(state.volume));
      case VolumeDown => VolumeChange(VolumeDownLevel(state.volume));
      case Mute => Mute();
    }

    /** The `onTimeUpdate`, `onDurationChange` and `onEnded` props: App gives the same three
        handlers to MediaPlayer and to VideoBackground, so either one's report lands here. */
    method Deliver(cb: Callback, random: real)
      requires Valid() && 0.0 <= random < 1.0
      modifies this
      ensures Valid()
      ensures cb.OnTimeUpdate? ==> state == TimeSet(old(state), cb.time) && currentTrackIndex == old(currentTrackIndex)
      ensures cb.OnDurationChange? ==>
        state == DurationSet(old(state), cb.duration) && currentTrackIndex == old(currentTrackIndex)
      ensures cb.OnEnded? && old(state.isRepeating) ==>
        state == Restarted(old(state)) && currentTrackIndex == old(currentTrackIndex)
      ensures cb.OnEnded? && !old(state.isRepeating) ==>
        currentTrackIndex == old(NextTarget(random)) && state == MovedTo(old(state), TrackAt(tracks, currentTrackIndex))
      ensures showPlayer == old(showPlayer)
      ensures old(Consistent()) ==> Consistent()
    {
      match cb
      case OnTimeUpdate(t) => TimeUpdate(t);
      case OnDurationChange(d) => DurationChange(d);
      case OnEnded => Ended(random);
    }
  }

  /** Three tracks: select the second, press play (which pauses it), press next
      without shuffle: the third track plays from 0. */
  method ThreeTrackScenario(catalog: seq<Track>) returns (index: int, time: real, playing: bool, current: Option<Track>)
    requires |catalog| == 3 && UniqueIds(catalog)
    ensures index == 2 && time == 0.0 && playing && current == Some(catalog[2])
  {
    var p := new Player(catalog);
    p.TrackSelect(catalog[1]);
    FindIndexOfMember(catalog, catalog[1]);
    p.PlayPause();
    p.Next(0.0);
    index, time, playing, current := p.currentTrackIndex, p.state.currentTime, p.state.isPlaying, p.state.currentTrack;
  }

  /** Both media components report into the same `currentTime`, and the video's
      reports are not held back: while the audio's quiet window after a seek drops
      its own time update, the video's update with its own position lands in App.
      The video's metadata likewise overwrites App's `duration`. */
  method VideoWritesSharedTime(catalog: seq<Track>, track: Track, videoLength: real, seekTo: real, videoTime: real)
    returns (audioReport: Option<Callback>, appTime: real, appDuration: real)
    requires |catalog| > 0 && HasVideo(track)
    requires MediaPlayer.NeedsSeek(0.0, seekTo) && seekTo <= videoLength
    ensures audioReport == None && appTime == videoTime && appDuration == videoLength
  {
    var p := new Player(catalog);
    var audio := new MediaPlayer.AudioSync();
    var video := new VideoBackground.VideoFollower();
    p.TrackSelect(track);
    audio.Mount(p.state.currentTrack);
    audio.TrackEffect(p.state.currentTrack);
    video.Commit(VideoPropsOf(p.state));
    var meta := video.LoadedMetadata(Some(videoLength));
    p.Deliver(meta.value, 0.0);
    p.Seek(seekTo);
    video.Commit(VideoPropsOf(p.state));
    audio.TimeEffect(p.state.currentTime);
    video.SyncEffect(VideoPropsOf(p.state));
    video.Progress(videoTime);
    var report := video.Dispatch(VideoBackground.VideoTimeUpdate);
    p.Deliver(report.value, 0.0);
    audioReport := audio.Dispatch(MediaPlayer.TimeUpdate);
    appTime, appDuration := p.state.currentTime, p.state.duration;
  }

  /** MediaPlayer is the second child of the list view (App.tsx:215) but the third of the
      player view (App.tsx:305), so every switch of view replaces it by a new component:
      a new element, a clear flag, no timer, and every effect runs once more. Here the
      flag gets stuck in the player view; after going back to the list, the new audio
      component forwards its time updates again. */
  method ViewSwitchRemountsAudio(catalog: seq<Track>, track: Track, t1: real, t2: real, p: real)
    returns (before: Option<Callback>, after: Option<Callback>)
    requires |catalog| > 0
    requires MediaPlayer.NeedsSeek(0.0, t1) && t2 != t1 && !MediaPlayer.NeedsSeek(t1, t2)
    ensures before == None && after == Some(OnTimeUpdate(p))
  {
    var player := new Player(catalog);
    player.TrackSelect(track);
    var audio := new MediaPlayer.AudioSync();
    audio.Mount(player.state.currentTrack);
    audio.TimeEffect(player.state.currentTime);
    audio.TrackEffect(player.state.currentTrack);
    player.Seek(t1);
    audio.TimeEffect(player.state.currentTime);
    player.Seek(t2);
    audio.TimeEffect(player.state.currentTime);
    audio.TimerFires();
    audio.Progress(p);
    before := audio.Dispatch(MediaPlayer.TimeUpdate);
    player.BackToList();
    var renewed := new MediaPlayer.AudioSync();
    renewed.Mount(player.state.currentTrack);
    renewed.TimeEffect(player.state.currentTime);
    renewed.TrackEffect(player.state.currentTrack);
    renewed.TimerFires();
    renewed.Progress(p);
    after := renewed.Dispatch(MediaPlayer.TimeUpdate);
  }
}
