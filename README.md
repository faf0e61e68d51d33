# nime-music-test in Dafny

A model of the playback core of the nime-music-test web music player: the React
`App` component that owns the player state and the transport handlers, the hidden
audio element that follows that state (`MediaPlayer`), the background video that
follows it too (`VideoBackground`), the lyrics cursor (`LyricsDisplay`), the
`m:ss` time display (`PlayerControls.formatTime`), the search filter of the track
list (`TrackList`) and the keyboard shortcuts (`useKeyboardShortcuts`).

One Dafny module per source file:

- `music.dfy` (`Music`): the track, lyric line and player-state records, the media
  commands and the three callbacks (`onTimeUpdate`, `onDurationChange`, `onEnded`).
- `app.dfy` (`App`): each handler's `prev => ({ ...prev, ... })` updater is a pure
  function. The class `Player` holds the React state: the state record, the current
  track index and the list/player view flag. It has one method per handler, and each
  method's contract gives the new state as the updater applied to the old state.
  `Math.random()` is a parameter `random` in [0, 1). JavaScript's truncating `%` is
  written out (`JsRem`). So is `tracks[j]` being `undefined` outside the catalog
  (`TrackAt`).
- `media_player.dfy` (`MediaPlayer`): the class `AudioSync` holds the audio element's
  position, duration, volume, rate and command log, plus the `seekingRef` flag. The
  200 ms `setTimeout` is a `timerPending` flag. A re-run of the effect clears that
  timer first, as the effect's cleanup does, and the `TimerFires` event fires it.
- `video_background.dfy` (`VideoBackground`): the static-background rule, the seek and
  play guards, and the class `VideoFollower`. That class holds the rendered video
  element and the `videoDuration` state.
- `lyrics.dfy` (`LyricsDisplay`): the backwards scan as a `while` loop. It is proved
  equal to a recursive reference definition, the greatest reached index. The line
  classification is also modelled.
- `player_controls.dfy` (`PlayerControls`): `formatTime` with JavaScript's
  `Math.floor`, `%`, `toString` and `padStart`, and a parser for `m:ss` as its partner.
- `track_list.dfy` (`TrackList`): the case-insensitive substring filter and the card
  highlight/click rules. Lower-casing is a character function passed as a parameter.
- `keyboard.dfy` (`KeyboardShortcuts`): the key-to-action switch.

React's scheduling is modelled as explicit events. A client first calls a handler,
then `Mount`/`Commit` (the render), then the effect methods whose dependencies
changed, in source order. Browser behaviour is modelled as explicit events too:
`Progress`, `MetadataArrives`/`LoadedMetadata`, and `TimerFires` for the timer.
Giving a kept element a new `src` resets it before any effect runs, and so does
`load()`: position 0, no duration yet, the default rate. The model writes this out
for both the audio and the video.

A component that React replaces is modelled as a new object. MediaPlayer is the
second child of the list view's root (App.tsx:215) and the third of the player
view's root (App.tsx:305). So every change of `showPlayer`, whether by selecting a
track (App.tsx:41) or by the back button (App.tsx:248), is modelled as follows:

- The old `AudioSync` is discarded and a new one takes its place. The new one has a
  new element, a clear flag and no timer, and all of its effects run once.
- VideoBackground exists only in the player view. So each track selection from the
  list gives a new `VideoFollower`, whose `videoDuration` starts at 0.

`App.ViewSwitchRemountsAudio` shows this for the audio.

Behaviours of the code worth noting:

- Seeking stores the requested time without clamping it to [0, duration].
- `handleVolumeChange` sets `isMuted` to `volume === 0`, so any positive volume unmutes.
- Play/pause toggles `isPlaying` even when no track is loaded.
- Repeat is handled in `App.handleEnded`, not in the media components. With repeat
  on, the updater sets `currentTime` to 0 and `isPlaying` to true. But `isPlaying`
  is already true, so MediaPlayer's `[isPlaying]` effect does not run again. No
  play command reaches the audio element, which paused itself at its end. Only the
  time effect moves it back to 0.
- There is no generation counter that ignores the reports of a replaced track.
- There is no fallback when loading fails.
- Nothing in the program calls `handleSpeedChange` or `handleVideoToggle`. PlayerControls
  receives `onSpeedChange`, `onVideoToggle`, `onVolumeChange` and `onMute` but renders no
  control for them: its only controls are the transport buttons and the seek slider
  (PlayerControls.tsx:98-141). No key is bound to speed or video either. So in the
  running program `playbackSpeed` stays 1 and `showVideo` stays true. The volume and
  mute handlers are reached only through the keyboard.

Some behaviours of the code, as written, are exhibited by scenario methods:

- `MediaPlayer.StuckSeekingWitness`: a small time change re-runs the time effect
  during the 200 ms quiet window. That run clears the timer without scheduling a new
  one, so the audio stops reporting its time. It recovers only at the next drift
  beyond 0.5 s, which schedules a new timer, or when the component is replaced at a
  view switch. `MediaPlayer.StuckSurvivesTrackChange` shows that a track change does
  not end it.
- `MediaPlayer.TrackChangeOpensNoQuietWindow`: the new source already puts the
  element at 0. So a change of track opens no quiet window.
- `VideoBackground.RemountLosesSpeed` and `VideoBackground.TrackChangeLosesSpeed`: a
  video that is hidden and shown again is a new element at the default rate. So is
  a video on screen whose track changes to another video. The settings effect
  depends only on volume and speed, so nothing sets the speed again. These describe
  the component for any speed its props carry. App itself never passes a speed
  other than 1.
- `VideoBackground.LateMetadataStaysStatic`: a video whose metadata has not arrived
  when App's time passes 0 is replaced by the static background. It stays static
  while App's time is above 0. It comes back when the time returns to 0: next,
  previous, a selection or a repeat.
- `App.VideoWritesSharedTime`: the video's time updates reach `currentTime` even
  while the audio's own are held back.

## Model

| member | source | states |
|---|---|---|
| App.JsRem | src/App.tsx:56 | JavaScript remainder: agrees with the mathematical one on non-negative dividends and lies strictly between -n and n |
| App.NextIndex | src/App.tsx:56 | `(i + 1) % n` with JavaScript's `%`; its range, wrap-around and inverse are stated by `WrapAround` |
| App.PreviousIndex | src/App.tsx:72 | `i === 0 ? n - 1 : i - 1`; its range, wrap-around and inverse are stated by `WrapAround` |
| App.RandomIndex | src/App.tsx:54 | `Math.floor(random * n)`; its range and reach are stated by `RandomIndexRange` |
| App.FindIndex | src/App.tsx:33 | the first position whose id matches, and -1 exactly when no entry has the id |
| App.TrackAt | src/App.tsx:61 | `tracks[j]` is a track exactly for positions inside the catalog, and then it is the entry at j |
| App.WrapAround | src/App.tsx:51-81 | without shuffle, next and previous stay in the catalog, wrap at both ends, and undo each other |
| App.RandomIndexRange | src/App.tsx:54 | a shuffled draw is always a catalog position, and every position, the current one included, can be drawn |
| App.FindIndexOfMember | src/App.tsx:32-34 | for a catalog track with unique ids, the looked-up index is the track's own position |
| App.Selected | src/App.tsx:35-40 | the select updater; what it sets and keeps is stated by `SelectEffect` |
| App.MovedTo | src/App.tsx:59-64 | the next/previous updater; what it sets and keeps is stated by `MoveEffect` |
| App.Restarted | src/App.tsx:173-177 | the repeat updater: time 0 and playing, applied by `Player.Ended` |
| App.PlayToggled | src/App.tsx:44-49 | the play/pause updater; stated by `TogglesInvolutive` |
| App.MuteToggled | src/App.tsx:91-96 | the mute updater; stated by `TogglesInvolutive` and `VolumeAndMute` |
| App.ShuffleToggled | src/App.tsx:98-103 | the shuffle updater; stated by `TogglesInvolutive` |
| App.RepeatToggled | src/App.tsx:105-110 | the repeat toggle updater; stated by `TogglesInvolutive` |
| App.VideoToggled | src/App.tsx:134-139 | the video toggle updater; stated by `TogglesInvolutive` |
| App.VolumeSet | src/App.tsx:83-89 | the volume updater; stated by `VolumeAndMute` |
| App.TimeSet | src/App.tsx:112-146 | the seek and time updater; stated by `StoresUnclamped` |
| App.DurationSet | src/App.tsx:148-153 | the duration updater; stated by `StoresUnclamped` |
| App.SpeedSet | src/App.tsx:127-132 | the speed updater; stated by `StoresUnclamped` |
| App.EffectiveVolume | src/App.tsx:220 | `isMuted ? 0 : volume`; stated by `VolumeAndMute` and `SameSettings` |
| App.VolumeUpLevel | src/App.tsx:186 | `Math.min(1, volume + 0.1)`; stated by `KeyboardVolumeBounds` |
| App.VolumeDownLevel | src/App.tsx:187 | `Math.max(0, volume - 0.1)`; stated by `KeyboardVolumeBounds` |
| App.AudioPropsOf | src/App.tsx:305-316 | the props of MediaPlayer; stated by `SameSettings` |
| App.VideoPropsOf | src/App.tsx:233-243 | the props of VideoBackground; stated by `SameSettings` |
| App.SelectEffect | src/App.tsx:35-40 | selecting loads the track, plays it from 0, and leaves every other field unchanged |
| App.MoveEffect | src/App.tsx:59-64 | next/previous load the chosen entry, play from 0, and leave every other field unchanged |
| App.TogglesInvolutive | src/App.tsx:44-110 | each toggle negates exactly its own flag, and toggling twice restores the state |
| App.VolumeAndMute | src/App.tsx:83-96 | the volume is stored and mutes exactly at 0; mute keeps the stored volume; muting twice restores the effective volume |
| App.KeyboardVolumeBounds | src/App.tsx:186-187 | the keyboard volume steps stay within [0, 1]; stepping down from at most 0.1 mutes and stepping up unmutes |
| App.StoresUnclamped | src/App.tsx:112-153 | seek, time, duration and speed updates store their argument as given and change nothing else |
| App.SameSettings | src/App.tsx:215-243 | audio and video are given the same time, speed and effective volume (0 while muted) |
| App.Player.constructor | src/App.tsx:14-28 | the initial state (`InitialState`, the `useState` record of lines 14-25), index 0 and the list view |
| App.Player.TrackSelect | src/App.tsx:32-42 | the new state is the select updater; the index is the id lookup (-1 if absent); the player view opens; the index matches the track when its id is unique in the catalog |
| App.Player.PlayPause | src/App.tsx:44-49 | toggles playing and nothing else |
| App.Player.Next | src/App.tsx:51-65 | the index becomes a random draw when shuffled, otherwise the next position; the state loads `tracks[index]` and plays from 0; consistency is kept |
| App.Player.Previous | src/App.tsx:67-81 | as for next, with the previous position and wrap-around to the last entry |
| App.Player.VolumeChange | src/App.tsx:83-89 | applies the volume updater |
| App.Player.Mute | src/App.tsx:91-96 | toggles mute |
| App.Player.ShuffleToggle | src/App.tsx:98-103 | toggles shuffle |
| App.Player.RepeatToggle | src/App.tsx:105-110 | toggles repeat |
| App.Player.Seek | src/App.tsx:112-125 | stores the requested time as given |
| App.Player.SpeedChange | src/App.tsx:127-132 | stores the speed |
| App.Player.VideoToggle | src/App.tsx:134-139 | toggles the video |
| App.Player.TimeUpdate | src/App.tsx:141-146 | stores the reported time |
| App.Player.DurationChange | src/App.tsx:148-153 | stores the reported duration |
| App.Player.Ended | src/App.tsx:155-181 | with repeat on, App's time becomes 0 and `isPlaying` true, and the index is kept; otherwise the effect is exactly that of next |
| App.Player.BackToList | src/App.tsx:248 | returns to the list view without touching the player state |
| App.Player.KeyAction | src/App.tsx:182-189 | each shortcut has the effect of its handler; the volume keys step the volume by 0.1 within [0, 1]; only next and previous move the index |
| App.Player.Deliver | src/App.tsx:223-225 | a report from either media component runs the matching handler: time, duration, or ended (repeat or next) |
| App.ThreeTrackScenario | src/App.tsx:32-65 | with three tracks: select the second, press play/pause, press next without shuffle; the third track then plays from 0 |
| App.VideoWritesSharedTime | src/App.tsx:233-243 | the video's metadata sets App's duration, and its time update sets `currentTime` while the audio's update is suppressed |
| App.ViewSwitchRemountsAudio | src/App.tsx:215-316 | with the audio's flag stuck in the player view, going back to the list replaces MediaPlayer, and the new one forwards its time updates |
| MediaPlayer.NeedsSeek | src/components/MediaPlayer.tsx:67 | the drift rule, more than 0.5 s; applied by `AudioSync.TimeEffect` and stated by `SeekSettles` |
| MediaPlayer.SeekSettles | src/components/MediaPlayer.tsx:67-69 | right after a move to t, t itself is within the tolerance |
| MediaPlayer.AudioSync.constructor | src/components/MediaPlayer.tsx:29-32 | no element yet, flag clear, no timer, no commands |
| MediaPlayer.AudioSync.Mount | src/components/MediaPlayer.tsx:118-126 | the audio element exists exactly while there is a track and carries its `audioSrc`; a new element starts at 0 with default volume and rate; a kept element given a new source restarts at 0 with no duration and the default rate, keeping its volume |
| MediaPlayer.AudioSync.Progress | src/components/MediaPlayer.tsx:122-126 | playback moves only an attached element |
| MediaPlayer.AudioSync.MetadataArrives | src/components/MediaPlayer.tsx:122-126 | only an attached element receives its duration |
| MediaPlayer.AudioSync.Dispatch | src/components/MediaPlayer.tsx:34-61 | a time update is forwarded only while the flag is clear; metadata forwards the element's duration; the end forwards `onEnded`; a detached element forwards nothing |
| MediaPlayer.AudioSync.TimeEffect | src/components/MediaPlayer.tsx:63-77 | the previous timer is cleared; the element moves to t, sets the flag and schedules a timer exactly when attached and drifting more than 0.5 s; otherwise the flag is left as it was |
| MediaPlayer.AudioSync.TimerFires | src/components/MediaPlayer.tsx:71-73 | a pending timer clears the flag; with none pending nothing changes |
| MediaPlayer.AudioSync.TrackEffect | src/components/MediaPlayer.tsx:80-88 | with an element and a track, issues load then play; the load restarts the element at 0 with no duration and the default rate |
| MediaPlayer.AudioSync.PlayingEffect | src/components/MediaPlayer.tsx:91-100 | issues play or pause following `isPlaying` |
| MediaPlayer.AudioSync.VolumeEffect | src/components/MediaPlayer.tsx:103-108 | an attached element takes the volume |
| MediaPlayer.AudioSync.RateEffect | src/components/MediaPlayer.tsx:111-116 | an attached element takes the speed |
| MediaPlayer.StuckSeekingWitness | src/components/MediaPlayer.tsx:63-77 | after a seek, a small further change within the quiet window leaves the flag set with no timer pending, so time updates stay dropped |
| MediaPlayer.TrackChangeOpensNoQuietWindow | src/components/MediaPlayer.tsx:63-88 | a change to a track with another source leaves the element at App's time 0, so no seek happens and the next time update is forwarded |
| MediaPlayer.StuckSurvivesTrackChange | src/components/MediaPlayer.tsx:63-88 | a stuck flag stays set across a change of track, so the new track's time updates are dropped too |
| MediaPlayer.QuietWindowEnds | src/components/MediaPlayer.tsx:38-42 | a time update during the quiet window is dropped, and once the timer has fired it is forwarded again |
| VideoBackground.StaticBackground | src/components/VideoBackground.tsx:100 | the static-background rule; stated by `PastTheEnd`, `RenderedGuards` and `VideoFollower.Commit` |
| VideoBackground.ShouldSeek | src/components/VideoBackground.tsx:62-72 | the seek guard of the sync effect; stated by `RenderedGuards`, `PastTheEnd` and `SeekSettles` |
| VideoBackground.PlayOrPause | src/components/VideoBackground.tsx:81-85 | play exactly when shown, playing and within the video's duration; never a load |
| VideoBackground.MetadataDuration | src/components/VideoBackground.tsx:35-36 | a missing duration counts as 0 |
| VideoBackground.PastTheEnd | src/components/VideoBackground.tsx:66-100 | past the video's duration it is neither moved nor played, and the static background shows |
| VideoBackground.RenderedGuards | src/components/VideoBackground.tsx:70-100 | while the video is on screen, it moves exactly on more than 0.3 s drift with a known duration and plays exactly when App plays; a track with video plays only while on screen |
| VideoBackground.SeekSettles | src/components/VideoBackground.tsx:70-72 | right after a move, the same time moves nothing |
| VideoBackground.VideoFollower.constructor | src/components/VideoBackground.tsx:27-28 | no element and `videoDuration` 0 |
| VideoBackground.VideoFollower.Commit | src/components/VideoBackground.tsx:100-123 | the element is rendered exactly when the static background is not; a new element starts at 0 with no metadata and default volume and rate; a new source on a kept element restarts it at 0 with no metadata and the default rate |
| VideoBackground.VideoFollower.Progress | src/components/VideoBackground.tsx:116-123 | playback moves only a rendered element |
| VideoBackground.VideoFollower.LoadedMetadata | src/components/VideoBackground.tsx:34-37 | the element's duration (0 if missing) becomes `videoDuration` and is reported to App |
| VideoBackground.VideoFollower.Dispatch | src/components/VideoBackground.tsx:39-45 | time updates are always forwarded with the element's time; the end forwards `onEnded` |
| VideoBackground.VideoFollower.SyncEffect | src/components/VideoBackground.tsx:61-73 | the element moves to App's time exactly under the seek guard |
| VideoBackground.VideoFollower.PlayEffect | src/components/VideoBackground.tsx:76-86 | a rendered element is told to play or pause by the play guard |
| VideoBackground.VideoFollower.SettingsEffect | src/components/VideoBackground.tsx:89-94 | a rendered element takes the volume and the speed |
| VideoBackground.RemountLosesSpeed | src/components/VideoBackground.tsx:89-94 | at speed 2, hiding and showing the video gives a rendered element at rate 1 |
| VideoBackground.TrackChangeLosesSpeed | src/components/VideoBackground.tsx:89-123 | at speed 2, changing to a track with another video leaves the rendered element at rate 1 |
| VideoBackground.LateMetadataStaysStatic | src/components/VideoBackground.tsx:96-111 | once the time passes 0 before the metadata arrives, the video is gone, its metadata is never handled, and it stays static while the time is above 0 |
| LyricsDisplay.LastReached | src/components/LyricsDisplay.tsx:14-22 | the reference cursor is -1 or a line index |
| LyricsDisplay.Cursor | src/components/LyricsDisplay.tsx:15-22 | the reference cursor of an optional track; `CurrentLyricIndex` returns it and `NoLyrics` covers the missing track |
| LyricsDisplay.CurrentLyricIndex | src/components/LyricsDisplay.tsx:14-22 | the backwards scan returns the reference cursor: -1 without a track, otherwise a reached line with no later line reached |
| LyricsDisplay.Characterized | src/components/LyricsDisplay.tsx:16-21 | a reached index with no later reached line is exactly the cursor |
| LyricsDisplay.CursorInRange | src/components/LyricsDisplay.tsx:17-18 | the active line's time has been reached |
| LyricsDisplay.CursorMaximal | src/components/LyricsDisplay.tsx:16-19 | no line after the active one has been reached |
| LyricsDisplay.CursorMissIff | src/components/LyricsDisplay.tsx:21 | the cursor is -1 exactly when every line is still ahead |
| LyricsDisplay.NoLyrics | src/components/LyricsDisplay.tsx:15 | without a track or lines there is no active line |
| LyricsDisplay.TiesGoToLast | src/components/LyricsDisplay.tsx:16-19 | among reached lines with equal times, the cursor is at or after the last one |
| LyricsDisplay.TieExample | src/components/LyricsDisplay.tsx:14-22 | lines at 0, 5, 5, 10: times 4.9, 5, 9.99, 10 and -1 give 0, 2, 2, 3 and -1 |
| LyricsDisplay.CursorMonotone | src/components/LyricsDisplay.tsx:14-22 | the cursor never moves back as time advances, whatever the line order |
| LyricsDisplay.Status | src/components/LyricsDisplay.tsx:63-64 | active, past and upcoming are exactly index equal to, below and above the cursor |
| LyricsDisplay.StatusMeaning | src/components/LyricsDisplay.tsx:62-75 | an upcoming line is in the future and the active one is not; for sorted lines, upcoming exactly means in the future |
| PlayerControls.Trunc | src/components/PlayerControls.tsx:68 | rounding toward zero: the nearest integer between 0 and x that is less than 1 away from x, the basis of JavaScript's `%` on numbers |
| PlayerControls.JsMod | src/components/PlayerControls.tsx:68 | `time % 60` with JavaScript's sign rule; for t >= 0 in [0, 60) by `Fields`, negative by `NegativeExample` |
| PlayerControls.IntToString | src/components/PlayerControls.tsx:67-69 | `toString` of an integer, with a minus sign below 0; stated through `NatToString` |
| PlayerControls.FormatTime | src/components/PlayerControls.tsx:66-70 | `formatTime` itself; its shape and round trip are stated by `Fields`, `Shape`, `RoundTrip` and `NegativeExample` |
| PlayerControls.NatToString | src/components/PlayerControls.tsx:68 | a decimal numeral is digits only and has one digit exactly below 10 |
| PlayerControls.PadStart2 | src/components/PlayerControls.tsx:68 | padding leaves strings of length 2 or more alone and otherwise gives two characters ending in the input |
| PlayerControls.DigitsRoundTrip | src/components/PlayerControls.tsx:68 | a numeral reads back as its number |
| PlayerControls.Fields | src/components/PlayerControls.tsx:66-70 | for t >= 0, the minutes are at least 0, the seconds lie in [0, 59], and together they give floor(t) |
| PlayerControls.TwoDigitSeconds | src/components/PlayerControls.tsx:68 | seconds in [0, 59] are shown as exactly two digits |
| PlayerControls.ParseJoined | src/components/PlayerControls.tsx:69 | a minutes numeral, ':' and two digits read back field by field |
| PlayerControls.Shape | src/components/PlayerControls.tsx:66-70 | for t >= 0: unpadded minutes, one ':', then exactly two digits |
| PlayerControls.RoundTrip | src/components/PlayerControls.tsx:66-70 | for t >= 0, reading the display back gives floor(t) seconds |
| PlayerControls.NegativeExample | src/components/PlayerControls.tsx:66-70 | -30 seconds is displayed as "-1:-30" |
| TrackList.Lower | src/components/TrackList.tsx:24 | lower-casing keeps the length and maps each character |
| TrackList.Includes | src/components/TrackList.tsx:24 | `includes`: the needle occurs at some position; the empty needle case is used by `EmptyTermKeepsAll` |
| TrackList.Matches | src/components/TrackList.tsx:24 | the search predicate; `FilterMembership` states that it decides membership |
| TrackList.Filter | src/components/TrackList.tsx:22-26 | the filtered list is never longer than the catalog |
| TrackList.FilterIsSubsequence | src/components/TrackList.tsx:23-25 | the filtered list is the catalog with entries deleted, in catalog order |
| TrackList.FilterSound | src/components/TrackList.tsx:23-25 | every entry shown is a catalog track that matches |
| TrackList.FilterComplete | src/components/TrackList.tsx:23-25 | every catalog track that matches is shown |
| TrackList.FilterMembership | src/components/TrackList.tsx:23-25 | a track is shown exactly when it is in the catalog and matches |
| TrackList.EmptyTermKeepsAll | src/components/TrackList.tsx:20-26 | the initial empty search shows the whole catalog, in order |
| TrackList.AllMatchKept | src/components/TrackList.tsx:23-25 | a list whose every entry matches is kept whole |
| TrackList.FilterIdempotent | src/components/TrackList.tsx:22-26 | filtering the shown list again with the same term changes nothing |
| TrackList.IsActive | src/components/TrackList.tsx:48 | a card is highlighted exactly when its id is the current track's |
| TrackList.CardClick | src/components/TrackList.tsx:53-70 | a click on the active card's overlay toggles play; any other click selects that card's track |
| KeyboardShortcuts.KeyFor | src/hooks/useKeyboardShortcuts.ts:28-48 | the key bound to each action; `KeyMapExact` states it is the only one |
| KeyboardShortcuts.HandleKey | src/hooks/useKeyboardShortcuts.ts:21-53 | inside an input or text area no shortcut fires; any action fired is the one bound to the key |
| KeyboardShortcuts.KeyMapExact | src/hooks/useKeyboardShortcuts.ts:27-52 | outside text fields each action is fired by its key and by no other key; "M" fires nothing |

## Left out

- Rendering, styling and icons of every component are left out, and so are `CurrentTrackInfo.tsx` and `vite.config.ts`. They only display values.
- Promise rejections from `play()` are left out. They are only logged.
- App's writes to its own `audioRef`/`videoRef` in `handleSeek` and in the repeat branch of `handleEnded` (App.tsx:119-124, 157-171) are left out. Those refs are never attached to an element, so the writes never run.
- The `<video>` inside MediaPlayer (MediaPlayer.tsx:127-134) is left out. It has no ref-driven behaviour and is never played.
- Stale closures are not modelled. Each handler reads the state of its own render, and App reads `playerState.isShuffled` and `currentTrackIndex` directly. The model applies updates one at a time, so a handler always sees the latest state.
- The listener effects (MediaPlayer.tsx:34-61, VideoBackground.tsx:31-58) are not modelled as separate subscriptions. They re-subscribe on every render, and `Dispatch` reads the current element and flag.
- The lyric scroll effect (LyricsDisplay.tsx:26-39) is left out. It is layout only.
- The lyric click (LyricsDisplay.tsx:76) is left out. App never passes `onSeek` to LyricsDisplay, so a click has no handler.
- The seek slider's `Number(e.target.value)` conversion is left out. The model's `Seek` takes the number the slider would give.
- Speed and video have no control in PlayerControls and no key. Volume and mute have a key each but no control. The handlers are modelled as App defines them, whether or not anything in the program calls them.
- Floating-point arithmetic is modelled as exact real arithmetic. For example, the volume steps of 0.1 do not round.
- NaN and Infinity durations are not modelled. `|| 0` is modelled only for a missing duration. The audio element's NaN duration after a reset is modelled as 0.
- The media components are separate objects that a client creates, not fields of `Player`. A view switch that replaces a component is modelled by the client creating a new object.
- `toLowerCase` is a character function passed as a parameter. The model has no Unicode case mapping that changes a string's length.
- `preventDefault` and attaching the keydown listener are left out; `HandleKey` returns the action.
- React's batching and the exact interleaving of renders are left out. Effects are explicit methods that the client calls in dependency order.
- FormatTime: the shape and round-trip properties are stated only for t >= 0. Negative times give displays such as "-1:-30" (`NegativeExample`).
- TrackSelect: the index-matches-track property is proved only when the selected track is in the catalog and ids are unique. Otherwise `findIndex` may give -1 or another entry with the same id, and the model keeps that value.
- Next and Previous: `Consistent` is preserved, but `currentTrackIndex` may start at -1 after selecting an unknown track. Previous from -1 then gives -2, and `TrackAt` yields no track, as `tracks[-2]` is `undefined`.
