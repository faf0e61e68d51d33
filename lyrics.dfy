/** The lyrics cursor of LyricsDisplay: which line is active at the current time,
    and how every other line is classified relative to it. */
module LyricsDisplay {
  import opened Music

  /** Reference definition of the cursor: the greatest index whose time has been
      reached, or -1 when no line's time has been reached. */
  function LastReached(lines: seq<LyricLine>, t: real): (r: int)
    ensures -1 <= r < |lines|
  {
    if |lines| == 0 then -1
    else if lines[|lines| - 1].time <= t then |lines| - 1
    else LastReached(lines[..|lines| - 1], t)
  }

  /** The cursor for an optional track: no track means no active line. */
  function Cursor(track: Option<Track>, t: real): int
  {
    match track
    case None => -1
    case Some(tr) => LastReached(tr.lyrics, t)
  }

  /** The lyric lines are in non-decreasing time order. */
  ghost predicate Sorted(lines: seq<LyricLine>)
  {
    forall i, j :: 0 <= i < j < |lines| ==> lines[i].time <= lines[j].time
  }

  /** `getCurrentLyricIndex`: scans the lines from the last one backwards and
      returns the first index whose time has been reached. */
  method CurrentLyricIndex(track: Option<Track>, currentTime: real) returns (index: int)
    ensures index == Cursor(track, currentTime)
    ensures track.None? ==> index == -1
    ensures track.Some? ==> -1 <= index < |track.value.lyrics|
    ensures track.Some? && index >= 0 ==> track.value.lyrics[index].time <= currentTime
    ensures track.Some? ==>
      forall j :: index < j < |track.value.lyrics| ==> track.value.lyrics[j].time > currentTime
  {
    if track.None? {
      return -1;
    }
    var lyrics := track.value.lyrics;
    var i := |lyrics| - 1;
    while i >= 0
      invariant -1 <= i < |lyrics|
      invariant forall j :: i < j < |lyrics| ==> lyrics[j].time > currentTime
    {
      if currentTime >= lyrics[i].time {
        Characterized(lyrics, currentTime, i);
        return i;
      }
      i := i - 1;
    }
    Characterized(lyrics, currentTime, -1);
    return -1;
  }

  /** An index that has been reached and beyond which no line has been reached
      is exactly the reference cursor. */
  lemma {:induction false} Characterized(lines: seq<LyricLine>, t: real, r: int)
    requires -1 <= r < |lines|
    requires r >= 0 ==> lines[r].time <= t
    requires forall j :: r < j < |lines| ==> lines[j].time > t
    ensures LastReached(lines, t) == r
  {
    if |lines| > 0 && r < |lines| - 1 {
      var init := lines[..|lines| - 1];
      assert forall j :: r < j < |init| ==> init[j] == lines[j];
      Characterized(init, t, r);
    }
  }

  /** When the cursor is a real index, that line's time has been reached. */
  lemma {:induction false} CursorInRange(lines: seq<LyricLine>, t: real)
    ensures LastReached(lines, t) >= 0 ==> lines[LastReached(lines, t)].time <= t
  {
    if |lines| > 0 && lines[|lines| - 1].time > t {
      var init := lines[..|lines| - 1];
      CursorInRange(init, t);
      assert LastReached(init, t) >= 0 ==> init[LastReached(init, t)] == lines[LastReached(init, t)];
    }
  }

  /** Every line after the cursor lies in the future, whatever the order of the lines. */
  lemma {:induction false} CursorMaximal(lines: seq<LyricLine>, t: real)
    ensures forall j :: LastReached(lines, t) < j < |lines| ==> lines[j].time > t
  {
    if |lines| > 0 && lines[|lines| - 1].time > t {
      var init := lines[..|lines| - 1];
      CursorMaximal(init, t);
      assert forall j :: 0 <= j < |init| ==> init[j] == lines[j];
    }
  }

  /** The cursor is -1 exactly when every line's time is still ahead. */
  lemma CursorMissIff(lines: seq<LyricLine>, t: real)
    ensures LastReached(lines, t) == -1 <==> forall j :: 0 <= j < |lines| ==> lines[j].time > t
  {
    CursorInRange(lines, t);
    CursorMaximal(lines, t);
  }

  /** Without a track, or with a track that has no lines, there is never an active line. */
  lemma NoLyrics(track: Option<Track>, t: real)
    requires track.None? || track.value.lyrics == []
    ensures Cursor(track, t) == -1
  {
  }

  /** Among lines with one timestamp that has been reached, the cursor is at or after the last of them. */
  lemma TiesGoToLast(lines: seq<LyricLine>, t: real, i: int, j: int)
    requires 0 <= i < j < |lines| && lines[i].time == lines[j].time <= t
    ensures LastReached(lines, t) >= j
  {
    CursorMaximal(lines, t);
  }

  /** The worked example: lines at 0, 5, 5 and 10 seconds. */
  lemma TieExample()
    ensures var lines := [LyricLine(0.0, "a"), LyricLine(5.0, "b"), LyricLine(5.0, "c"), LyricLine(10.0, "d")];
      && LastReached(lines, 4.9) == 0
      && LastReached(lines, 5.0) == 2
      && LastReached(lines, 9.99) == 2
      && LastReached(lines, 10.0) == 3
      && LastReached(lines, -1.0) == -1
  {
    var lines := [LyricLine(0.0, "a"), LyricLine(5.0, "b"), LyricLine(5.0, "c"), LyricLine(10.0, "d")];
    Characterized(lines, 4.9, 0);
    Characterized(lines, 5.0, 2);
    Characterized(lines, 9.99, 2);
    Characterized(lines, 10.0, 3);
    Characterized(lines, -1.0, -1);
  }

  /** The cursor never moves backwards as time advances, whatever the order of the lines. */
  lemma {:induction false} CursorMonotone(lines: seq<LyricLine>, t1: real, t2: real)
    requires t1 <= t2
    ensures LastReached(lines, t1) <= LastReached(lines, t2)
  {
    if |lines| > 0 && lines[|lines| - 1].time > t2 {
      CursorMonotone(lines[..|lines| - 1], t1, t2);
    } else if |lines| > 0 {
      CursorInRange(lines, t1);
    }
  }

  /** How a line is rendered relative to the cursor. */
  datatype LineStatus = Active | Past | Upcoming

  /** `isActive` and `isPast` of the render loop; a line that is neither is upcoming. */
  function Status(index: int, cursor: int): (s: LineStatus)
    ensures s == Active <==> index == cursor
    ensures s == Past <==> index < cursor
    ensures s == Upcoming <==> index > cursor
  {
    if index == cursor then Active
    else if index < cursor then Past
    else Upcoming
  }

  /** With the cursor at the current time, an upcoming line is always in the future and the
      active line is not; when the lines are sorted, past lines are not in the future either,
      so a line is upcoming exactly when its time is still ahead. */
  lemma StatusMeaning(lines: seq<LyricLine>, t: real, k: int)
    requires 0 <= k < |lines|
    ensures Status(k, LastReached(lines, t)) == Upcoming ==> lines[k].time > t
    ensures Status(k, LastReached(lines, t)) == Active ==> lines[k].time <= t
    ensures Sorted(lines) ==> (Status(k, LastReached(lines, t)) == Upcoming <==> lines[k].time > t)
  {
    CursorInRange(lines, t);
    CursorMaximal(lines, t);
  }
}
