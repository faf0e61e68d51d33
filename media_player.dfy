/** MediaPlayer: the hidden audio element that follows App's state. It forwards the
    element's events to App, moves the element when App's time drifts more than half
    a second from it, and during the 200 ms after such a move stops forwarding time
    updates (the `seekingRef` flag). Each React effect is one method here; React runs
    each when its dependencies change, in the order the methods are listed. */
module MediaPlayer {
  import opened Music

  /** Drift in seconds beyond which the audio element is moved to App's time. */
  const SeekTolerance: real := 0.5

  /** The drift rule of the time effect. */
  predicate NeedsSeek(position: real, t: real)
  {
    Abs(position - t) > SeekTolerance
  }

  /** Right after the element has been moved to t, asking for t again moves nothing. */
  lemma SeekSettles(t: real)
    ensures !NeedsSeek(t, t)
  {
  }

  /** The props App passes. */
  datatype AudioProps = AudioProps(
    track: Option<Track>,
    isPlaying: bool,
    currentTime: real,
    duration: real,
    volume: real,
    playbackSpeed: real,
    showVideo: bool)

  /** The events the audio element raises. */
  datatype ElementEvent = TimeUpdate | LoadedMetadata | Ended

  class AudioSync {
    /** `audioRef.current !== null`: the element exists only while a track is loaded. */
    var attached: bool
    /** The element's `src`: the `audioSrc` of the track it was last rendered with. */
    var src: string
    /** The element's `currentTime`, `duration`, `volume` and `playbackRate`. */
    var position: real
    var elementDuration: real
    var volume: real
    var playbackRate: real
    /** Every play, pause and load command issued to the element, oldest first. */
    var commands: seq<MediaCommand>
    /** `seekingRef.current`. */
    var seeking: bool
    /** A 200 ms timeout scheduled by the time effect that has neither fired nor been cleared. */
    var timerPending: bool

    /** A pending timer always belongs to a seek that set the flag. */
    ghost predicate Valid()
      reads this
    {
      timerPending ==> seeking
    }

    constructor ()
      ensures Valid()
      ensures !attached && !seeking && !timerPending && commands == []
      ensures position == 0.0 && elementDuration == 0.0 && volume == 1.0 && playbackRate == 1.0
    {
      attached, src, seeking, timerPending := false, "", false, false;
      position, elementDuration, volume, playbackRate := 0.0, 0.0, 1.0, 1.0;
      commands := [];
    }

    /** React's commit: the `<audio>` element is rendered exactly when there is a track,
        with the track's `audioSrc`. A newly created element starts at position 0 with
        default volume and rate; a kept element given a new source is reset by the
        browser before any effect runs: position 0, no duration yet, the default rate. */
    method Mount(track: Option<Track>)
      requires Valid()
      modifies this
      ensures Valid()
      ensures attached == track.Some?
      ensures attached ==> src == track.value.audioSrc
      ensures !attached ==> src == old(src)
      ensures attached && !old(attached) ==>
        position == 0.0 && elementDuration == 0.0 && volume == 1.0 && playbackRate == 1.0
      ensures attached && old(attached) && src != old(src) ==>
        position == 0.0 && elementDuration == 0.0 && volume == old(volume) && playbackRate == 1.0
      ensures (!attached || (old(attached) && src == old(src))) ==>
        position == old(position) && elementDuration == old(elementDuration) &&
        volume == old(volume) && playbackRate == old(playbackRate)
      ensures commands == old(commands) && seeking == old(seeking) && timerPending == old(timerPending)
    {
      if track.Some? {
        var newSrc := track.value.audioSrc;
        if !attached {
          position, elementDuration, volume, playbackRate := 0.0, 0.0, 1.0, 1.0;
        } else if newSrc != src {
          position, elementDuration, playbackRate := 0.0, 0.0, 1.0;
        }
        src := newSrc;
      }
      attached := track.Some?;
    }

    /** The browser: playback advances the element's position. */
    method Progress(p: real)
      modifies this
      ensures position == (if attached then p else old(position))
      ensures attached == old(attached) && src == old(src) && commands == old(commands)
      ensures seeking == old(seeking) && timerPending == old(timerPending)
      ensures elementDuration == old(elementDuration) && volume == old(volume) && playbackRate == old(playbackRate)
    {
      if attached {
        position := p;
      }
    }

    /** The browser: the element's metadata arrives with its duration. */
    method MetadataArrives(d: real)
      modifies this
      ensures elementDuration == (if attached then d else old(elementDuration))
      ensures attached == old(attached) && src == old(src) && commands == old(commands) && position == old(position)
      ensures seeking == old(seeking) && timerPending == old(timerPending)
      ensures volume == old(volume) && playbackRate == old(playbackRate)
    {
      if attached {
        elementDuration := d;
      }
    }

    /** The listeners: a time update is passed on only while no seek is settling;
        metadata passes on the element's duration; the end of the media passes on `onEnded`. */
    method Dispatch(e: ElementEvent) returns (cb: Option<Callback>)
      ensures !attached ==> cb == None
      ensures attached && e == TimeUpdate ==> cb == (if seeking then None else Some(OnTimeUpdate(position)))
      ensures attached && e == LoadedMetadata ==> cb == Some(OnDurationChange(elementDuration))
      ensures attached && e == Ended ==> cb == Some(OnEnded)
    {
      if !attached {
        return None;
      }
      match e
      case TimeUpdate =>
        if !seeking {
          cb := Some(OnTimeUpdate(position));
        } else {
          cb := None;
        }
      case LoadedMetadata =>
        cb := Some(OnDurationChange(elementDuration));
      case Ended =>
        cb := Some(OnEnded);
    }

    /** The `[currentTime]` effect. Its previous run's cleanup clears any pending timer;
        then, if the element is more than 0.5 s from `t`, it is moved to `t`, the flag is
        set and a new 200 ms timer is scheduled. Otherwise nothing else changes; in
        particular the flag is left as it was. */
    method TimeEffect(t: real)
      requires Valid()
      modifies this
      ensures Valid()
      ensures var moved := old(attached) && NeedsSeek(old(position), t);
        && position == (if moved then t else old(position))
        && seeking == (moved || old(seeking))
        && timerPending == moved
      ensures attached == old(attached) && src == old(src) && commands == old(commands) && elementDuration == old(elementDuration)
      ensures volume == old(volume) && playbackRate == old(playbackRate)
    {
      timerPending := false;
      if attached && Abs(position - t) > SeekTolerance {
        seeking := true;
        position := t;
        timerPending := true;
      }
    }

    /** The 200 ms timeout firing clears the flag; with no timer pending nothing happens. */
    method TimerFires()
      requires Valid()
      modifies this
      ensures Valid()
      ensures old(timerPending) ==> !seeking && !timerPending
      ensures !old(timerPending) ==> seeking == old(seeking) && !timerPending
      ensures attached == old(attached) && src == old(src) && position == old(position) && commands == old(commands)
      ensures elementDuration == old(elementDuration) && volume == old(volume) && playbackRate == old(playbackRate)
    {
      if timerPending {
        seeking := false;
        timerPending := false;
      }
    }

    /** The `[track]` effect: the track is loaded and played. `load()` restarts the
        element: position 0, no duration yet and the default rate, which the rate
        effect, also keyed on the track, sets back to the chosen speed right after. */
    method TrackEffect(track: Option<Track>)
      requires Valid()
      modifies this
      ensures Valid()
      ensures var issues := old(attached) && track.Some?;
        && commands == old(commands) + (if issues then [Load, Play] else [])
        && position == (if issues then 0.0 else old(position))
        && elementDuration == (if issues then 0.0 else old(elementDuration))
        && playbackRate == (if issues then 1.0 else old(playbackRate))
      ensures attached == old(attached) && src == old(src) && seeking == old(seeking) && timerPending == old(timerPending)
      ensures volume == old(volume)
    {
      if attached && track.Some? {
        commands := commands + [Load, Play];
        position, elementDuration, playbackRate := 0.0, 0.0, 1.0;
      }
    }

    /** The `[isPlaying]` effect: play when playing, pause otherwise. */
    method PlayingEffect(isPlaying: bool)
      requires Valid()
      modifies this
      ensures Valid()
      ensures commands == old(commands) + (if old(attached) then [if isPlaying then Play else Pause] else [])
      ensures attached == old(attached) && src == old(src) && position == old(position)
      ensures seeking == old(seeking) && timerPending == old(timerPending)
      ensures elementDuration == old(elementDuration) && volume == old(volume) && playbackRate == old(playbackRate)
    {
      if attached {
        if isPlaying {
          commands := commands + [Play];
        } else {
          commands := commands + [Pause];
        }
      }
    }

    /** The `[volume, track]` effect. */
    method VolumeEffect(v: real)
      requires Valid()
      modifies this
      ensures Valid()
      ensures volume == (if old(attached) then v else old(volume))
      ensures attached == old(attached) && src == old(src) && position == old(position) && commands == old(commands)
      ensures seeking == old(seeking) && timerPending == old(timerPending)
      ensures elementDuration == old(elementDuration) && playbackRate == old(playbackRate)
    {
      if attached {
        volume := v;
      }
    }

    /** The `[playbackSpeed, track]` effect. */
    method RateEffect(r: real)
      requires Valid()
      modifies this
      ensures Valid()
      ensures playbackRate == (if old(attached) then r else old(playbackRate))
      ensures attached == old(attached) && src == old(src) && position == old(position) && commands == old(commands)
      ensures seeking == old(seeking) && timerPending == old(timerPending)
      ensures elementDuration == old(elementDuration) && volume == old(volume)
    {
      if attached {
        playbackRate := r;
      }
    }
  }

  /** A time-effect run with small drift before the timer fires cancels that timer and
      schedules none, so the flag stays set: later time updates of the element are
      dropped although no seek is settling, until a drift beyond 0.5 s schedules a new
      timer or the component is replaced. Here a track is loaded, App's time jumps to
      t1 (a seek), then moves slightly to t2 within the 200 ms. */
  method StuckSeekingWitness(track: Track, t1: real, t2: real, p: real)
    returns (forwarded: Option<Callback>, seeking: bool, timerPending: bool)
    requires NeedsSeek(0.0, t1) && t2 != t1 && !NeedsSeek(t1, t2)
    ensures seeking && !timerPending && forwarded == None
  {
    var a := new AudioSync();
    a.Mount(Some(track));
    a.TrackEffect(Some(track));
    a.TimeEffect(t1);
    a.TimeEffect(t2);
    a.TimerFires();
    a.Progress(p);
    forwarded := a.Dispatch(TimeUpdate);
    seeking, timerPending := a.seeking, a.timerPending;
  }

  /** Without an intervening re-run, the timer firing ends the quiet window and the
      element's next time update reaches App again. */
  method QuietWindowEnds(track: Track, t: real, p: real) returns (during: Option<Callback>, after: Option<Callback>)
    requires NeedsSeek(0.0, t)
    ensures during == None && after == Some(OnTimeUpdate(p))
  {
    var a := new AudioSync();
    a.Mount(Some(track));
    a.TrackEffect(Some(track));
    a.TimeEffect(t);
    a.Progress(p);
    during := a.Dispatch(TimeUpdate);
    a.TimerFires();
    after := a.Dispatch(TimeUpdate);
  }

  /** A move to another track sets App's time to 0 while the element, given the new
      source, restarts at 0 itself: the time effect sees no drift, so a track change
      opens no quiet window and the new track's time updates are forwarded at once. */
  method TrackChangeOpensNoQuietWindow(a: Track, b: Track, p: real, q: real) returns (forwarded: Option<Callback>)
    requires a.audioSrc != b.audioSrc
    ensures forwarded == Some(OnTimeUpdate(q))
  {
    var m := new AudioSync();
    m.Mount(Some(a));
    m.TrackEffect(Some(a));
    m.Progress(p);
    m.TimeEffect(p);
    m.Mount(Some(b));
    m.TimeEffect(0.0);
    m.TrackEffect(Some(b));
    m.Progress(q);
    forwarded := m.Dispatch(TimeUpdate);
  }

  /** For the same reason a stuck flag survives a track change: the new track's time
      updates are dropped as well. */
  method StuckSurvivesTrackChange(a: Track, b: Track, t1: real, t2: real, q: real) returns (forwarded: Option<Callback>)
    requires NeedsSeek(0.0, t1) && t2 != t1 && !NeedsSeek(t1, t2) && a.audioSrc != b.audioSrc
    ensures forwarded == None
  {
    var m := new AudioSync();
    m.Mount(Some(a));
    m.TrackEffect(Some(a));
    m.TimeEffect(t1);
    m.TimeEffect(t2);
    m.TimerFires();
    m.Mount(Some(b));
    m.TimeEffect(0.0);
    m.TrackEffect(Some(b));
    m.TimerFires();
    m.Progress(q);
    forwarded := m.Dispatch(TimeUpdate);
  }
}
